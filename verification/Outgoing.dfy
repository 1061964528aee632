/** The queue of messages under way to the client, as a function of what happened to it. */
module Outgoing {
  import opened Basics
  import opened Messages

  type Queue = seq<MQTTMessage>

  /** An entry of the queue: a PUBLISH of QoS 1 or 2, or the PUBREC that took its place. */
  predicate IsEntry(m: MQTTMessage) {
    m.PubRec? || (m.Publish? && 1 <= m.publish.qos <= 2)
  }

  function Mid(m: MQTTMessage): U16 {
    match m
    case Publish(p) => p.identifier
    case PubRec(mid) => mid
    case _ => 0
  }

  function Ids(q: Queue): set<U16> {
    set i | 0 <= i < |q| :: Mid(q[i])
  }

  ghost predicate WellFormed(q: Queue) {
    && (forall i :: 0 <= i < |q| ==> IsEntry(q[i]))
    && (forall i, j :: 0 <= i < j < |q| ==> Mid(q[i]) != Mid(q[j]))
  }

  /** First position of an identifier, or the length of the queue. */
  function Position(q: Queue, mid: U16): (i: nat)
    ensures i <= |q| && (i < |q| ==> Mid(q[i]) == mid)
    ensures forall j :: 0 <= j < i ==> Mid(q[j]) != mid
  {
    if q == [] then 0
    else if Mid(q[0]) == mid then 0
    else 1 + Position(q[1..], mid)
  }

  function Without(q: Queue, mid: U16): Queue {
    var i := Position(q, mid);
    if i < |q| then q[..i] + q[i + 1..] else q
  }

  function SetDup(m: MQTTMessage): MQTTMessage {
    if m.Publish? then MQTTMessage.Publish(m.publish.(dup := true)) else m
  }

  /** What happens to the queue and to its counter, in the order it happens. */
  datatype Change =
    | Drawn(mid: U16)                            // the counter gave out an identifier
    | Issued(mid: U16, publish: Basics.Publish)  // a message of the router was queued under it
    | Handed(packet: Basics.Publish)             // its PUBLISH went to the client, as it is queued
    | Marked(mid: U16)                           // that it went out is on record
    | Received(mid: U16)                         // PUBREC came from the client
    | Lost(mid: U16)                             // the PUBLISH was dropped for a PUBREC that could not be stored
    | Acknowledged(mid: U16)                     // PUBACK or PUBCOMP came
    | Forgotten                                  // a clean session emptied the queue
    | Renewed                                    // and the counter began again
    | Retained(kept: Basics.Publish)             // a retained message went to the client, outside the queue
    | Other(control: MQTTMessage)                // any other packet went to the client

  function Apply(q: Queue, c: Change): Queue {
    match c
    case Issued(mid, m) => q + [Entry(mid, m)]
    case Marked(mid) => var i := Position(q, mid); if i < |q| then q[i := SetDup(q[i])] else q
    case Received(mid) =>
      var i := Position(q, mid);
      if i < |q| && q[i].PubRec? then q else Without(q, mid) + [PubRec(mid)]
    case Lost(mid) => Without(q, mid)
    case Acknowledged(mid) => Without(q, mid)
    case Forgotten => []
    case _ => q
  }

  /** A message of the router under the identifier it was given. */
  function Entry(mid: U16, m: Basics.Publish): MQTTMessage {
    MQTTMessage.Publish(m.(identifier := mid, dup := false))
  }

  /** A change the program makes only in this state of the queue. */
  predicate Allowed(q: Queue, c: Change) {
    match c
    case Issued(mid, m) => mid !in Ids(q) && 1 <= m.qos <= 2
    case Handed(p) => Waits(q, p.identifier) && q[Position(q, p.identifier)] == MQTTMessage.Publish(p)
    case Marked(mid) => Waits(q, mid)
    case Lost(mid) => Waits(q, mid)
    case Other(m) => !(m.Publish? && OfEntry(m.publish))
    case _ => true
  }

  /** The QoS levels that are queued. */
  predicate OfEntry(m: Basics.Publish) {
    1 <= m.qos <= 2
  }

  // ----- what goes to the client -----

  function Packet(c: Change): seq<MQTTMessage> {
    match c
    case Handed(p) => [MQTTMessage.Publish(p)]
    case Retained(p) => [MQTTMessage.Publish(p)]
    case Other(m) => [m]
    case _ => []
  }

  /** The packets of a history, in order. */
  function Packets(cs: seq<Change>): seq<MQTTMessage> {
    if cs == [] then [] else Packets(cs[..|cs| - 1]) + Packet(cs[|cs| - 1])
  }

  lemma {:induction false} PacketsAppend(cs: seq<Change>, ds: seq<Change>)
    ensures Packets(cs + ds) == Packets(cs) + Packets(ds)
    decreases |ds|
  {
    hide Packet;
    var es := cs + ds;
    if ds == [] {
      assert es == cs;
    } else {
      var init, last := ds[..|ds| - 1], ds[|ds| - 1];
      PacketsAppend(cs, init);
      assert es[..|es| - 1] == cs + init && es[|es| - 1] == last;
      assert Packets(cs) + Packets(init) + Packet(last) == Packets(cs) + (Packets(init) + Packet(last));
    }
  }

  lemma PacketsStep(cs: seq<Change>, c: Change)
    ensures Packets(cs + [c]) == Packets(cs) + Packet(c)
  {}

  /** Every packet is of one change, in the order of the changes. */
  lemma {:induction false} PacketOf(cs: seq<Change>, i: nat) returns (j: nat)
    requires i < |Packets(cs)|
    ensures j < |cs| && |Packets(cs[..j])| == i && Packet(cs[j]) == [Packets(cs)[i]]
  {
    var ds := cs[..|cs| - 1];
    if i < |Packets(ds)| {
      j := PacketOf(ds, i);
      assert ds[..j] == cs[..j];
    } else {
      j := |ds|;
    }
  }

  /** A PUBLISH is queued under the identifier. */
  predicate Waits(q: Queue, mid: U16) {
    var i := Position(q, mid); i < |q| && q[i].Publish?
  }

  function Fold(q: Queue, cs: seq<Change>): Queue {
    if cs == [] then q else Apply(Fold(q, cs[..|cs| - 1]), cs[|cs| - 1])
  }

  ghost predicate AllAllowed(q: Queue, cs: seq<Change>) {
    forall k :: 0 <= k < |cs| ==> Allowed(Fold(q, cs[..k]), cs[k])
  }

  lemma FoldStep(q: Queue, cs: seq<Change>, c: Change)
    ensures Fold(q, cs + [c]) == Apply(Fold(q, cs), c)
    ensures AllAllowed(q, cs) && Allowed(Fold(q, cs), c) ==> AllAllowed(q, cs + [c])
  {
    var ds := cs + [c];
    assert ds[..|cs|] == cs;
    forall k | 0 <= k < |ds| && AllAllowed(q, cs) && Allowed(Fold(q, cs), c) ensures Allowed(Fold(q, ds[..k]), ds[k]) {
      if k < |cs| {
        assert ds[..k] == cs[..k];
      }
    }
  }

  // ----- identifiers stay distinct, entries stay entries -----

  lemma InIds(q: Queue, mid: U16)
    ensures mid in Ids(q) <==> Position(q, mid) < |q|
  {}

  lemma WithoutIds(q: Queue, mid: U16)
    requires WellFormed(q)
    ensures WellFormed(Without(q, mid)) && Ids(Without(q, mid)) == Ids(q) - {mid}
  {
    var i, w := Position(q, mid), Without(q, mid);
    if i < |q| {
      assert forall j :: 0 <= j < |w| ==> w[j] == q[if j < i then j else j + 1];
      forall x ensures x in Ids(w) <==> x in Ids(q) - {mid} {
        if x in Ids(q) && x != mid {
          var k :| 0 <= k < |q| && Mid(q[k]) == x;
          assert Mid(w[if k < i then k else k - 1]) == x;
        }
      }
    } else {
      InIds(q, mid);
    }
  }

  lemma AppendIds(q: Queue, m: MQTTMessage)
    requires WellFormed(q) && IsEntry(m) && Mid(m) !in Ids(q)
    ensures WellFormed(q + [m]) && Ids(q + [m]) == Ids(q) + {Mid(m)}
  {
    var w := q + [m];
    forall x ensures x in Ids(w) <==> x in Ids(q) + {Mid(m)} {
      if x in Ids(q) {
        var k :| 0 <= k < |q| && Mid(q[k]) == x;
        assert w[k] == q[k];
      }
      assert w[|q|] == m;
    }
  }

  function IdsAfter(q: Queue, c: Change): set<U16> {
    match c
    case Issued(mid, _) => Ids(q) + {mid}
    case Received(mid) => Ids(q) + {mid}
    case Lost(mid) => Ids(q) - {mid}
    case Acknowledged(mid) => Ids(q) - {mid}
    case Forgotten => {}
    case _ => Ids(q)
  }

  lemma DupIds(q: Queue, i: nat)
    requires WellFormed(q) && i < |q|
    ensures WellFormed(q[i := SetDup(q[i])]) && Ids(q[i := SetDup(q[i])]) == Ids(q)
  {
    var w := q[i := SetDup(q[i])];
    assert forall j :: 0 <= j < |q| ==> Mid(w[j]) == Mid(q[j]) && IsEntry(w[j]);
    assert forall x :: x in Ids(q) <==> x in Ids(w);
  }

  lemma ReceivedIds(q: Queue, mid: U16)
    requires WellFormed(q)
    ensures WellFormed(Apply(q, Received(mid))) && Ids(Apply(q, Received(mid))) == Ids(q) + {mid}
  {
    InIds(q, mid);
    WithoutIds(q, mid);
    hide WellFormed, Ids, Without;
    var i := Position(q, mid);
    if !(i < |q| && q[i].PubRec?) {
      AppendIds(Without(q, mid), PubRec(mid));
    }
  }

  lemma ApplyWellFormed(q: Queue, c: Change)
    requires WellFormed(q) && Allowed(q, c)
    ensures WellFormed(Apply(q, c)) && Ids(Apply(q, c)) == IdsAfter(q, c)
  {
    hide Ids, Without;
    match c {
      case Issued(mid, m) =>
        AppendIds(q, Entry(mid, m));
      case Marked(mid) =>
        DupIds(q, Position(q, mid));
      case Received(mid) =>
        ReceivedIds(q, mid);
      case Lost(mid) =>
        WithoutIds(q, mid);
      case Acknowledged(mid) =>
        WithoutIds(q, mid);
      case Forgotten =>
        NoIds();
      case _ =>
    }
  }

  lemma NoIds()
    ensures Ids([]) == {}
  {}

  /** In every run from a queue in order, identifiers are pairwise distinct and only PUBLISH of QoS 1 or 2 and
      PUBREC are queued, however the identifier counter wraps. */
  lemma {:induction false} RunWellFormed(q: Queue, cs: seq<Change>)
    requires WellFormed(q) && AllAllowed(q, cs)
    ensures WellFormed(Fold(q, cs))
  {
    if cs != [] {
      var ds, c := cs[..|cs| - 1], cs[|cs| - 1];
      PrefixAllowed(q, cs, |ds|);
      RunWellFormed(q, ds);
      ApplyWellFormed(Fold(q, ds), c);
    }
  }

  // ----- time stamps: when an entry took its place at the end -----

  /** Negative stamps number the entries the queue was started with. */
  datatype Stamped = Stamped(entry: MQTTMessage, at: int)

  function Erase(ss: seq<Stamped>): (q: Queue)
    ensures |q| == |ss| && forall i :: 0 <= i < |ss| ==> q[i] == ss[i].entry
  {
    seq(|ss|, i requires 0 <= i < |ss| => ss[i].entry)
  }

  function Drop(ss: seq<Stamped>, i: nat): seq<Stamped> {
    if i < |ss| then ss[..i] + ss[i + 1..] else ss
  }

  function ApplyStamped(ss: seq<Stamped>, c: Change, now: int): seq<Stamped> {
    var q := Erase(ss);
    match c
    case Issued(mid, m) => ss + [Stamped(Entry(mid, m), now)]
    case Marked(mid) =>
      var i := Position(q, mid); if i < |ss| then ss[i := Stamped(SetDup(ss[i].entry), ss[i].at)] else ss
    case Received(mid) =>
      var i := Position(q, mid);
      if i < |ss| && ss[i].entry.PubRec? then ss else Drop(ss, i) + [Stamped(PubRec(mid), now)]
    case Lost(mid) => Drop(ss, Position(q, mid))
    case Acknowledged(mid) => Drop(ss, Position(q, mid))
    case Forgotten => []
    case _ => ss
  }

  function StampedFrom(q: Queue): seq<Stamped> {
    seq(|q|, i requires 0 <= i < |q| => Stamped(q[i], i - |q|))
  }

  function FoldStamped(q: Queue, cs: seq<Change>): seq<Stamped> {
    if cs == [] then StampedFrom(q) else ApplyStamped(FoldStamped(q, cs[..|cs| - 1]), cs[|cs| - 1], |cs| - 1)
  }

  lemma EraseApply(ss: seq<Stamped>, c: Change, now: int)
    ensures Erase(ApplyStamped(ss, c, now)) == Apply(Erase(ss), c)
  {
    hide Erase, Drop, Position, Entry, SetDup, Without;
    var q := Erase(ss);
    match c {
      case Issued(mid, m) => EraseAppend(ss, Stamped(Entry(mid, m), now));
      case Marked(mid) =>
        var i := Position(q, mid);
        if i < |ss| {
          EraseUpdate(ss, i, Stamped(SetDup(ss[i].entry), ss[i].at));
        }
      case Received(mid) =>
        EraseWithout(ss, mid);
        EraseAppend(Drop(ss, Position(q, mid)), Stamped(PubRec(mid), now));
      case Lost(mid) => EraseWithout(ss, mid);
      case Acknowledged(mid) => EraseWithout(ss, mid);
      case Forgotten => EraseNone();
      case _ =>
    }
  }

  lemma EraseAppend(ss: seq<Stamped>, s: Stamped)
    ensures Erase(ss + [s]) == Erase(ss) + [s.entry]
  {}

  lemma EraseUpdate(ss: seq<Stamped>, i: nat, s: Stamped)
    requires i < |ss|
    ensures Erase(ss[i := s]) == Erase(ss)[i := s.entry]
  {}

  lemma EraseDrop(ss: seq<Stamped>, i: nat)
    ensures Erase(Drop(ss, i)) == if i < |ss| then Erase(ss)[..i] + Erase(ss)[i + 1..] else Erase(ss)
  {}

  lemma EraseWithout(ss: seq<Stamped>, mid: U16)
    ensures Erase(Drop(ss, Position(Erase(ss), mid))) == Without(Erase(ss), mid)
  {
    hide Erase, Drop;
    EraseDrop(ss, Position(Erase(ss), mid));
  }

  lemma EraseNone()
    ensures Erase([]) == []
  {}

  lemma {:induction false} EraseFold(q: Queue, cs: seq<Change>)
    ensures Erase(FoldStamped(q, cs)) == Fold(q, cs)
  {
    if cs != [] {
      EraseFold(q, cs[..|cs| - 1]);
      EraseApply(FoldStamped(q, cs[..|cs| - 1]), cs[|cs| - 1], |cs| - 1);
    } else {
      assert Erase(StampedFrom(q)) == q;
    }
  }

  /** The change takes such an entry out of its place. */
  predicate Takes(c: Change, x: MQTTMessage) {
    match c
    case Received(mid) => mid == Mid(x) && x.Publish?
    case Lost(mid) => mid == Mid(x)
    case Acknowledged(mid) => mid == Mid(x)
    case Forgotten => true
    case _ => false
  }

  /** What a change puts at the end of the queue. */
  function Put(c: Change): Option<MQTTMessage> {
    match c
    case Issued(mid, m) => Some(Entry(mid, m))
    case Received(mid) => Some(PubRec(mid))
    case _ => None
  }

  /** The entry is the one its stamp points to, but for the dup flag, and nothing took it away since. */
  ghost predicate Placed(q: Queue, cs: seq<Change>, s: Stamped) {
    && -|q| <= s.at < |cs|
    && (if s.at < 0 then s.entry == q[|q| + s.at] || s.entry == SetDup(q[|q| + s.at])
        else Put(cs[s.at]).Some? && (s.entry == Put(cs[s.at]).value || s.entry == SetDup(Put(cs[s.at]).value)))
    && forall j :: 0 <= j < |cs| && s.at < j ==> !Takes(cs[j], s.entry)
  }

  ghost predicate AllPlaced(q: Queue, cs: seq<Change>, ss: seq<Stamped>) {
    forall i :: 0 <= i < |ss| ==> Placed(q, cs, ss[i])
  }

  ghost predicate Ordered(ss: seq<Stamped>) {
    forall i, j :: 0 <= i < j < |ss| ==> ss[i].at < ss[j].at
  }

  ghost predicate AllBefore(ss: seq<Stamped>, now: int) {
    forall i :: 0 <= i < |ss| ==> ss[i].at < now
  }

  lemma DropOrdered(ss: seq<Stamped>, i: nat, now: int)
    requires Ordered(ss) && AllBefore(ss, now)
    ensures Ordered(Drop(ss, i)) && AllBefore(Drop(ss, i), now)
  {
    assert forall k :: 0 <= k < |Drop(ss, i)| ==> Drop(ss, i)[k] == ss[if i < |ss| && i <= k then k + 1 else k];
  }

  lemma AppendOrdered(ss: seq<Stamped>, s: Stamped)
    requires Ordered(ss) && AllBefore(ss, s.at)
    ensures Ordered(ss + [s])
  {}

  lemma UpdateOrdered(ss: seq<Stamped>, i: nat, x: MQTTMessage)
    requires Ordered(ss) && i < |ss|
    ensures Ordered(ss[i := Stamped(x, ss[i].at)])
  {}

  lemma ApplyOrdered(ss: seq<Stamped>, c: Change, now: int)
    requires Ordered(ss) && AllBefore(ss, now)
    ensures Ordered(ApplyStamped(ss, c, now))
  {
    hide Ordered, AllBefore, Drop, Position, Erase, Entry, SetDup;
    var q := Erase(ss);
    match c {
      case Issued(mid, m) => AppendOrdered(ss, Stamped(Entry(mid, m), now));
      case Marked(mid) =>
        var i := Position(q, mid);
        if i < |ss| {
          UpdateOrdered(ss, i, SetDup(ss[i].entry));
        }
      case Received(mid) =>
        DropOrdered(ss, Position(q, mid), now);
        AppendOrdered(Drop(ss, Position(q, mid)), Stamped(PubRec(mid), now));
      case Lost(mid) => DropOrdered(ss, Position(q, mid), now);
      case Acknowledged(mid) => DropOrdered(ss, Position(q, mid), now);
      case Forgotten => NoneOrdered();
      case _ =>
    }
  }

  lemma NoneOrdered()
    ensures Ordered([])
  {}

  lemma StayPlaced(q: Queue, cs: seq<Change>, c: Change, s: Stamped)
    requires Placed(q, cs, s) && !Takes(c, s.entry)
    ensures Placed(q, cs + [c], s) && Placed(q, cs + [c], Stamped(SetDup(s.entry), s.at))
  {
    var ds := cs + [c];
    forall j | 0 <= j < |ds| && s.at < j ensures !Takes(ds[j], s.entry) && !Takes(ds[j], SetDup(s.entry)) {}
  }

  lemma NewPlaced(q: Queue, cs: seq<Change>, c: Change)
    requires Put(c).Some?
    ensures Placed(q, cs + [c], Stamped(Put(c).value, |cs|))
  {}

  lemma ApplyPlaced(q: Queue, cs: seq<Change>, ss: seq<Stamped>, c: Change, i: nat)
    requires AllPlaced(q, cs, ss) && WellFormed(Erase(ss)) && i < |ApplyStamped(ss, c, |cs|)|
    ensures Placed(q, cs + [c], ApplyStamped(ss, c, |cs|)[i])
  {
    hide Placed;
    var w, next := Erase(ss), ApplyStamped(ss, c, |cs|);
    match c {
      case Issued(mid, m) =>
        if i == |ss| {
          NewPlaced(q, cs, c);
        } else {
          StayPlaced(q, cs, c, ss[i]);
        }
      case Received(mid) =>
        var k := Position(w, mid);
        if k < |ss| && ss[k].entry.PubRec? {
          if i != k {
            OtherMid(w, mid, i);
          }
          StayPlaced(q, cs, c, ss[i]);
        } else if i == |next| - 1 {
          NewPlaced(q, cs, c);
        } else {
          assert next[i] == Drop(ss, k)[i];
          OtherStays(q, cs, ss, mid, i);
        }
      case Lost(mid) =>
        OtherStays(q, cs, ss, mid, i);
      case Acknowledged(mid) =>
        OtherStays(q, cs, ss, mid, i);
      case Forgotten =>
      case _ =>
        StayPlaced(q, cs, c, ss[i]);
    }
  }

  lemma OtherStays(q: Queue, cs: seq<Change>, ss: seq<Stamped>, mid: U16, i: nat)
    requires AllPlaced(q, cs, ss) && WellFormed(Erase(ss)) && i < |Drop(ss, Position(Erase(ss), mid))|
    ensures var s := Drop(ss, Position(Erase(ss), mid))[i];
            Placed(q, cs + [Received(mid)], s) && Placed(q, cs + [Lost(mid)], s) && Placed(q, cs + [Acknowledged(mid)], s)
  {
    hide Placed, WellFormed;
    var w := Erase(ss);
    var k := Position(w, mid);
    var j := if i < k then i else i + 1;
    OtherMid(w, mid, j);
    assert w[j] == ss[j].entry && Drop(ss, k)[i] == ss[j];
    hide Erase, Drop, Position;
    StayPlaced(q, cs, Received(mid), ss[j]);
    StayPlaced(q, cs, Lost(mid), ss[j]);
    StayPlaced(q, cs, Acknowledged(mid), ss[j]);
  }

  lemma OtherMid(q: Queue, mid: U16, i: nat)
    requires WellFormed(q) && i < |q| && i != Position(q, mid)
    ensures Mid(q[i]) != mid
  {}

  /**
   * In every run, from whatever queue the session was started with: the queue stands in the order in which its
   * entries were put at the end, first those of the start, then the messages issued and the PUBRECs received;
   * each entry is that message or PUBREC, still unanswered.
   */
  lemma {:induction false} RunOrdered(q: Queue, cs: seq<Change>)
    requires WellFormed(q) && AllAllowed(q, cs)
    ensures Erase(FoldStamped(q, cs)) == Fold(q, cs)
    ensures Ordered(FoldStamped(q, cs)) && AllPlaced(q, cs, FoldStamped(q, cs))
  {
    hide Placed, WellFormed, AllAllowed, Allowed, ApplyStamped, Apply, Fold, Erase;
    EraseFold(q, cs);
    if cs == [] {
      StartPlaced(q);
    } else {
      var ds, c := cs[..|cs| - 1], cs[|cs| - 1];
      assert cs == ds + [c];
      PrefixAllowed(q, cs, |ds|);
      RunOrdered(q, ds);
      RunWellFormed(q, ds);
      var ss := FoldStamped(q, ds);
      StampsPast(q, ds, ss);
      ApplyOrdered(ss, c, |ds|);
      forall i | 0 <= i < |FoldStamped(q, cs)| ensures Placed(q, cs, FoldStamped(q, cs)[i]) {
        ApplyPlaced(q, ds, ss, c, i);
      }
    }
  }

  lemma StartPlaced(q: Queue)
    ensures Ordered(StampedFrom(q)) && AllPlaced(q, [], StampedFrom(q))
  {}

  lemma StampsPast(q: Queue, cs: seq<Change>, ss: seq<Stamped>)
    requires AllPlaced(q, cs, ss)
    ensures AllBefore(ss, |cs|)
  {}

  lemma PrefixAllowed(q: Queue, cs: seq<Change>, j: nat)
    requires AllAllowed(q, cs) && j <= |cs|
    ensures AllAllowed(q, cs[..j])
  {
    forall k | 0 <= k < j ensures Allowed(Fold(q, cs[..j][..k]), cs[..j][k]) {
      assert cs[..j][..k] == cs[..k];
    }
  }

  lemma WithoutKeeps(q: Queue, x: U16, i: nat)
    requires i < |q| && Mid(q[i]) != x
    ensures q[i] in Without(q, x)
  {}

  // ----- replay -----

  /** What a queued entry sends when a client connects: the PUBLISH itself, or PUBREL for a PUBREC. */
  function Resent(m: MQTTMessage): MQTTMessage {
    if m.PubRec? then PubRel(m.mid) else m
  }

  function Replay(q: Queue): (r: seq<MQTTMessage>)
    ensures |r| == |q| && forall i :: 0 <= i < |q| ==> r[i] == Resent(q[i])
  {
    seq(|q|, i requires 0 <= i < |q| => Resent(q[i]))
  }

  /** One packet per entry from the front on: a PUBLISH as it is queued, for a PUBREC its PUBREL. */
  ghost predicate ReplayedAs(packets: seq<MQTTMessage>, q: Queue) {
    && |packets| <= |q|
    && (forall i :: 0 <= i < |packets| && q[i].Publish? ==> packets[i] == q[i])
    && (forall i :: 0 <= i < |packets| && q[i].PubRec? ==> packets[i] == PubRel(q[i].mid))
  }

  lemma ReplayIs(q: Queue, k: nat)
    requires k <= |q|
    ensures ReplayedAs(Replay(q)[..k], q) && |Replay(q)[..k]| == k
  {}

  /** The PUBLISH goes out, and if it is the first time, that is put on record. */
  function Handing(m: MQTTMessage): seq<Change> {
    if !m.Publish? then [Other(Resent(m))]
    else if m.publish.dup then [Handed(m.publish)]
    else [Handed(m.publish), Marked(m.publish.identifier)]
  }

  function Handings(q: Queue): seq<Change> {
    if q == [] then [] else Handings(q[..|q| - 1]) + Handing(q[|q| - 1])
  }

  /** The first `k` entries have been sent and marked. */
  function DupFirst(q: Queue, k: nat): Queue
    requires k <= |q|
  {
    seq(|q|, i requires 0 <= i < |q| => if i < k then SetDup(q[i]) else q[i])
  }

  lemma ReplayStep(q: Queue, k: nat)
    requires k < |q|
    ensures DupFirst(q, k)[k] == q[k]
    ensures DupFirst(q, k + 1) == DupFirst(q, k)[k := SetDup(q[k])]
    ensures Replay(q)[..k + 1] == Replay(q)[..k] + [Resent(q[k])]
    ensures Handings(q[..k + 1]) == Handings(q[..k]) + Handing(q[k])
  {
    assert q[..k + 1][..k] == q[..k];
  }

  lemma {:induction false} HandingsPrefix(q: Queue, k: nat)
    requires k <= |q|
    ensures Handings(q[..k]) <= Handings(q)
    decreases |q|
  {
    if k < |q| {
      HandingsPrefix(q[..|q| - 1], k);
      assert q[..|q| - 1][..k] == q[..k];
    } else {
      assert q[..k] == q;
    }
  }

  lemma PrefixAfter<T>(a: seq<T>, b: seq<T>, c: seq<T>)
    requires b <= c
    ensures a + b <= a + c
  {
    assert a + c == (a + b) + c[|b|..];
  }

  lemma FirstAfter<T>(a: seq<T>, b: seq<T>)
    requires b != []
    ensures a + [b[0]] <= a + b
  {
    PrefixAfter(a, [b[0]], b);
  }

  lemma HandingSome(m: MQTTMessage)
    ensures Handing(m) != []
  {}

  /** A replay that stops between an entry and its mark, or behind it, is a prefix of the whole. */
  lemma HandingStops(cs: seq<Change>, q: Queue, k: nat)
    requires k < |q|
    ensures Handing(q[k]) != [] && cs + Handings(q[..k]) + [Handing(q[k])[0]] <= cs + Handings(q)
    ensures cs + Handings(q[..k + 1]) <= cs + Handings(q)
  {
    hide Handings, Handing, Replay, Resent, DupFirst;
    ReplayStep(q, k);
    HandingSome(q[k]);
    HandingsPrefix(q, k + 1);
    var some, step := Handings(q[..k]), Handing(q[k]);
    FirstAfter(some, step);
    PrefixAfter(cs, some + [step[0]], some + step);
    PrefixAfter(cs, some + step, Handings(q));
    assert cs + (some + [step[0]]) == cs + some + [step[0]];
  }

  /** The packets of a replay. */
  lemma {:induction false} HandingsPackets(q: Queue)
    ensures Packets(Handings(q)) == Replay(q)
  {
    hide Handings, Handing, Replay, Resent, Packets;
    if q == [] {
      NothingHanded();
    } else {
      var init, last := q[..|q| - 1], q[|q| - 1];
      HandingsPackets(init);
      HandingPackets(last);
      HandingsStep(q);
      ReplayLast(q);
      PacketsAppend(Handings(init), Handing(last));
    }
  }

  lemma NothingHanded()
    ensures Handings([]) == [] && Replay([]) == [] && Packets([]) == []
  {}

  lemma HandingsStep(q: Queue)
    requires q != []
    ensures Handings(q) == Handings(q[..|q| - 1]) + Handing(q[|q| - 1])
  {
    hide Handing;
  }

  lemma ReplayLast(q: Queue)
    requires q != []
    ensures Replay(q) == Replay(q[..|q| - 1]) + [Resent(q[|q| - 1])]
  {
    hide Replay, Resent;
    var all, most := Replay(q), Replay(q[..|q| - 1]) + [Resent(q[|q| - 1])];
    forall i | 0 <= i < |q| ensures all[i] == most[i] {}
  }

  lemma HandingPackets(m: MQTTMessage)
    ensures Packets(Handing(m)) == [Resent(m)]
  {
    if m.Publish? && !m.publish.dup {
      PacketsStep([Handed(m.publish)], Marked(m.publish.identifier));
      assert [Handed(m.publish)] + [Marked(m.publish.identifier)] == Handing(m);
    }
    assert m.Publish? ==> Packets([Handed(m.publish)]) == [m];
  }

  lemma ReplayEnds(q: Queue)
    ensures |Replay(q)| == |q| && DupFirst(q, 0) == q && Handings([]) == [] && q[..|q|] == q && Replay(q)[..|q|] == Replay(q)
  {}

  /** Recording that the entry at `i` went out sets its dup flag. */
  lemma MarkAtPosition(q: Queue, i: nat)
    requires WellFormed(q) && i < |q| && q[i].Publish?
    ensures Allowed(q, Handed(q[i].publish)) && Allowed(q, Marked(Mid(q[i])))
    ensures Apply(q, Marked(Mid(q[i]))) == q[i := SetDup(q[i])]
  {}
}
