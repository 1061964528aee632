/** The outgoing messages of a session over all its starts, one identifier at a time. */
module History {
  import opened Basics
  import opened Messages
  import opened Outgoing

  /** What comes back of an entry after a restart: the retain flag is lost. */
  function Reread(x: MQTTMessage): MQTTMessage {
    if x.Publish? then MQTTMessage.Publish(x.publish.(retain := false)) else x
  }

  /** What is held under `mid` after a change, as far as a restart keeps it. */
  function ViewAfter(v: Option<MQTTMessage>, c: Change, mid: U16): Option<MQTTMessage> {
    match c
    case Issued(x, m) => if x == mid then Some(Reread(Entry(mid, m))) else v
    case Marked(x) => if x == mid && v.Some? then Some(SetDup(v.value)) else v
    case Received(x) => if x == mid then Some(PubRec(mid)) else v
    case Lost(x) => if x == mid then None else v
    case Acknowledged(x) => if x == mid then None else v
    case Forgotten => None
    case _ => v
  }

  function View(h: seq<Change>, mid: U16): Option<MQTTMessage> {
    if h == [] then None else ViewAfter(View(h[..|h| - 1], mid), h[|h| - 1], mid)
  }

  /** `u16` addition as the release build does it. */
  function Next(mid: U16): U16 {
    (mid + 1) % 0x1_0000
  }

  function CounterAfter(n: U16, c: Change): U16 {
    match c
    case Drawn(_) => Next(n)
    case Renewed => 1
    case _ => n
  }

  function Counter(h: seq<Change>): U16 {
    if h == [] then 1 else CounterAfter(Counter(h[..|h| - 1]), h[|h| - 1])
  }

  /** What must have come right before a change, and what the counter says. */
  predicate Timely(h: seq<Change>, c: Change) {
    match c
    case Drawn(mid) => mid == Counter(h)
    case Issued(mid, _) => h != [] && h[|h| - 1] == Drawn(mid)
    case Marked(mid) =>
      h != [] && h[|h| - 1].Handed? && h[|h| - 1].packet.identifier == mid && !h[|h| - 1].packet.dup
    case _ => true
  }

  predicate Possible(h: seq<Change>, c: Change) {
    Timely(h, c) &&
    match c
    case Issued(mid, m) => View(h, mid).None? && 1 <= m.qos <= 2
    case Handed(p) => View(h, p.identifier) == Some(Reread(MQTTMessage.Publish(p)))
    case Lost(mid) => View(h, mid).Some? && View(h, mid).value.Publish?
    case Other(m) => !(m.Publish? && OfEntry(m.publish))
    case _ => true
  }

  /** A history the program can have, across any number of starts. */
  ghost predicate Lawful(h: seq<Change>) {
    forall k :: 0 <= k < |h| ==> Possible(h[..k], h[k])
  }

  lemma ViewStep(h: seq<Change>, c: Change, mid: U16)
    ensures View(h + [c], mid) == ViewAfter(View(h, mid), c, mid)
  {}

  lemma CounterStep(h: seq<Change>, c: Change)
    ensures Counter(h + [c]) == CounterAfter(Counter(h), c)
  {}

  lemma LawfulStep(h: seq<Change>, c: Change)
    requires Lawful(h) && Possible(h, c)
    ensures Lawful(h + [c])
  {
    var g := h + [c];
    forall k | 0 <= k < |g| ensures Possible(g[..k], g[k]) {
      assert g[..k] == h[..k];
      assert k == |h| ==> h[..k] == h;
    }
  }

  lemma LawfulPrefix(h: seq<Change>, j: nat)
    requires Lawful(h) && j <= |h|
    ensures Lawful(h[..j])
  {
    forall k | 0 <= k < j ensures Possible(h[..j][..k], h[..j][k]) {
      assert h[..j][..k] == h[..k];
    }
  }

  // ----- the queue in memory and the history -----

  function Look(q: Queue, mid: U16): Option<MQTTMessage> {
    var i := Position(q, mid); if i < |q| then Some(Reread(q[i])) else None
  }

  ghost predicate Looks(q: Queue, h: seq<Change>) {
    forall mid :: Look(q, mid) == View(h, mid)
  }

  /** Queue and counter are what the history says. */
  ghost predicate Follows(q: Queue, n: U16, h: seq<Change>) {
    Lawful(h) && n == Counter(h) && Looks(q, h)
  }

  lemma PositionIs(q: Queue, mid: U16, i: nat)
    requires WellFormed(q) && i < |q| && Mid(q[i]) == mid
    ensures Position(q, mid) == i
  {}

  lemma AppendLook(q: Queue, x: MQTTMessage, mid: U16)
    requires WellFormed(q) && IsEntry(x) && Mid(x) !in Ids(q)
    ensures Look(q + [x], mid) == if Mid(x) == mid then Some(Reread(x)) else Look(q, mid)
  {
    var w := q + [x];
    AppendIds(q, x);
    InIds(q, mid);
    InIds(w, mid);
    if Mid(x) == mid {
      PositionIs(w, mid, |q|);
    } else if Position(q, mid) < |q| {
      PositionIs(w, mid, Position(q, mid));
    }
  }

  lemma WithoutLook(q: Queue, x: U16, mid: U16)
    requires WellFormed(q)
    ensures Look(Without(q, x), mid) == if x == mid then None else Look(q, mid)
  {
    var w := Without(q, x);
    WithoutIds(q, x);
    InIds(q, mid);
    InIds(w, mid);
    if x != mid && Position(q, mid) < |q| {
      var i := Position(q, mid);
      WithoutKeeps(q, x, i);
      var j :| 0 <= j < |w| && w[j] == q[i];
      PositionIs(w, mid, j);
    }
  }

  lemma DupLook(q: Queue, i: nat, mid: U16)
    requires WellFormed(q) && i < |q|
    ensures Look(q[i := SetDup(q[i])], mid) ==
            if Mid(q[i]) == mid then Some(SetDup(Reread(q[i]))) else Look(q, mid)
  {
    var w := q[i := SetDup(q[i])];
    DupIds(q, i);
    InIds(q, mid);
    InIds(w, mid);
    var j := Position(q, mid);
    if j < |q| {
      assert Mid(w[j]) == mid;
      PositionIs(w, mid, j);
      PositionIs(q, Mid(q[i]), i);
    }
  }

  /** The queue changes identifier by identifier as the history does. */
  lemma ApplyLook(q: Queue, c: Change, mid: U16)
    requires WellFormed(q) && Allowed(q, c)
    ensures Look(Apply(q, c), mid) == ViewAfter(Look(q, mid), c, mid)
  {
    hide Look, Without, WellFormed, Ids, Reread;
    match c {
      case Issued(x, m) =>
        AppendLook(q, Entry(x, m), mid);
      case Marked(x) =>
        DupLook(q, Position(q, x), mid);
        LookAt(q, x);
      case Received(x) =>
        LookAt(q, x);
        PubRecRead(x);
        if !(Position(q, x) < |q| && q[Position(q, x)].PubRec?) {
          WithoutIds(q, x);
          WithoutLook(q, x, mid);
          AppendLook(Without(q, x), PubRec(x), mid);
        }
      case Lost(x) =>
        WithoutLook(q, x, mid);
      case Acknowledged(x) =>
        WithoutLook(q, x, mid);
      case Forgotten =>
        NoLook(mid);
      case _ =>
    }
  }

  lemma LookAt(q: Queue, mid: U16)
    ensures Position(q, mid) < |q| ==>
              Look(q, mid) == Some(Reread(q[Position(q, mid)])) && (q[Position(q, mid)].PubRec? ==> q[Position(q, mid)] == PubRec(mid))
  {}

  lemma PubRecRead(mid: U16)
    ensures Reread(PubRec(mid)) == PubRec(mid)
  {}

  lemma NoLook(mid: U16)
    ensures Look([], mid) == None
  {}

  lemma AllowedPossible(q: Queue, h: seq<Change>, c: Change)
    requires Looks(q, h) && Allowed(q, c) && Timely(h, c)
    ensures Possible(h, c)
  {
    match c {
      case Issued(mid, _) =>
        InIds(q, mid);
        assert Look(q, mid) == View(h, mid);
      case Handed(p) =>
        assert Look(q, p.identifier) == View(h, p.identifier);
      case Lost(mid) =>
        assert Look(q, mid) == View(h, mid);
      case _ =>
    }
  }

  /** One change of the queue is one change of the history. */
  lemma FollowStep(q: Queue, n: U16, h: seq<Change>, c: Change)
    requires Follows(q, n, h) && WellFormed(q) && Allowed(q, c) && Timely(h, c)
    ensures Follows(Apply(q, c), CounterAfter(n, c), h + [c])
  {
    hide Lawful, Look, View, Counter, Timely, Possible, Allowed, Apply, WellFormed;
    AllowedPossible(q, h, c);
    LawfulStep(h, c);
    CounterStep(h, c);
    forall mid ensures Look(Apply(q, c), mid) == View(h + [c], mid) {
      ApplyLook(q, c, mid);
      ViewStep(h, c, mid);
    }
  }

  lemma FollowsNothing()
    ensures Follows([], 1, [])
  {}

  // ----- what is held under an identifier -----

  /** The message issued under `mid` at `k` is answered, acknowledged, dropped or forgotten by the change. */
  predicate Ends(c: Change, mid: U16) {
    c == Received(mid) || c == Lost(mid) || c == Acknowledged(mid) || c == Forgotten
  }

  ghost predicate IssuedAt(h: seq<Change>, mid: U16, k: int) {
    && 0 <= k < |h| && h[k].Issued? && h[k].mid == mid
    && forall j :: k < j < |h| ==> !Ends(h[j], mid)
  }

  ghost predicate MarkedAfter(h: seq<Change>, mid: U16, k: int) {
    exists j :: 0 <= j < |h| && k < j && h[j] == Marked(mid)
  }

  /** `p` is the message issued at `k`, marked if that is on record since. */
  ghost predicate WaitsSince(h: seq<Change>, mid: U16, k: int, p: Basics.Publish) {
    && IssuedAt(h, mid, k)
    && p == h[k].publish.(identifier := mid, retain := false, dup := MarkedAfter(h, mid, k))
  }

  /** A PUBLISH is held exactly from its issue until it is answered, dropped or forgotten, whatever restarts lie between. */
  lemma {:induction false} WaitingMeaning(h: seq<Change>, mid: U16, p: Basics.Publish)
    requires Lawful(h)
    ensures View(h, mid) == Some(MQTTMessage.Publish(p)) <==> exists k :: WaitsSince(h, mid, k, p)
  {
    if h != [] {
      var g, c := h[..|h| - 1], h[|h| - 1];
      assert h == g + [c] && Possible(g, c);
      LawfulPrefix(h, |g|);
      ViewStep(g, c, mid);
      WaitingMeaning(g, mid, p);
      WaitingMeaning(g, mid, p.(dup := false));
      WaitingMeaning(g, mid, p.(dup := true));
      hide View, Lawful, WaitsSince, ViewAfter;
      HeldStep(g, c, mid, p);
      if View(h, mid) == Some(MQTTMessage.Publish(p)) {
        if c.Issued? && c.mid == mid {
          WaitStep(g, c, mid, |g|, p);
        } else {
          var was := if c == Marked(mid) && View(g, mid) == Some(MQTTMessage.Publish(p.(dup := false))) then p.(dup := false) else p;
          var k :| WaitsSince(g, mid, k, was);
          WaitStep(g, c, mid, k, p);
        }
      }
      forall k | WaitsSince(h, mid, k, p) ensures View(h, mid) == Some(MQTTMessage.Publish(p)) {
        WaitStep(g, c, mid, k, p);
      }
    }
  }

  lemma HeldStep(g: seq<Change>, c: Change, mid: U16, p: Basics.Publish)
    requires Possible(g, c)
    ensures ViewAfter(View(g, mid), c, mid) == Some(MQTTMessage.Publish(p)) <==>
              if c.Issued? && c.mid == mid then Reread(Entry(mid, c.publish)) == MQTTMessage.Publish(p)
              else if c == Marked(mid) then p.dup && (View(g, mid) == Some(MQTTMessage.Publish(p.(dup := false))) ||
                                                      View(g, mid) == Some(MQTTMessage.Publish(p)))
              else !Ends(c, mid) && View(g, mid) == Some(MQTTMessage.Publish(p))
    ensures c.Issued? && c.mid == mid ==> View(g, mid) == None
  {}

  lemma WaitStep(g: seq<Change>, c: Change, mid: U16, k: int, p: Basics.Publish)
    ensures WaitsSince(g + [c], mid, k, p) <==>
              if k == |g| then c.Issued? && c.mid == mid && Reread(Entry(mid, c.publish)) == MQTTMessage.Publish(p)
              else if c == Marked(mid) then p.dup && (WaitsSince(g, mid, k, p.(dup := false)) || WaitsSince(g, mid, k, p))
              else !Ends(c, mid) && WaitsSince(g, mid, k, p)
  {
    var h := g + [c];
    if 0 <= k < |g| {
      assert IssuedAt(h, mid, k) <==> IssuedAt(g, mid, k) && !Ends(c, mid) by { IssuedStep(g, c, mid, k); }
      assert MarkedAfter(h, mid, k) <==> MarkedAfter(g, mid, k) || c == Marked(mid) by { MarkedStep(g, c, mid, k); }
    }
  }

  lemma IssuedStep(g: seq<Change>, c: Change, mid: U16, k: nat)
    requires k < |g|
    ensures IssuedAt(g + [c], mid, k) <==> IssuedAt(g, mid, k) && !Ends(c, mid)
  {
    var h := g + [c];
    if IssuedAt(h, mid, k) {
      assert !Ends(h[|g|], mid);
      assert forall j :: k < j < |g| ==> h[j] == g[j];
    }
  }

  lemma MarkedStep(g: seq<Change>, c: Change, mid: U16, k: nat)
    requires k < |g|
    ensures MarkedAfter(g + [c], mid, k) <==> MarkedAfter(g, mid, k) || c == Marked(mid)
  {
    var h := g + [c];
    assert h[|g|] == c;
    if j :| 0 <= j < |g| && k < j && g[j] == Marked(mid) {
      assert h[j] == Marked(mid);
    }
  }

  ghost predicate AnsweredSince(h: seq<Change>, mid: U16, k: int) {
    0 <= k < |h| && h[k] == Received(mid) && forall j :: k < j < |h| ==> h[j] != Acknowledged(mid) && h[j] != Forgotten
  }

  /** A PUBREC is held exactly from its arrival until PUBCOMP (or PUBACK) or a clean session. */
  lemma {:induction false} AnsweredMeaning(h: seq<Change>, mid: U16)
    requires Lawful(h)
    ensures View(h, mid) == Some(PubRec(mid)) <==> exists k :: AnsweredSince(h, mid, k)
  {
    if h != [] {
      var g, c := h[..|h| - 1], h[|h| - 1];
      assert h == g + [c] && Possible(g, c);
      LawfulPrefix(h, |g|);
      AnsweredMeaning(g, mid);
      ViewStep(g, c, mid);
      PubRecStays(g, c, mid);
      hide View, Possible, Lawful, AnsweredSince;
      if View(h, mid) == Some(PubRec(mid)) {
        if c == Received(mid) {
          AnswerOn(g, c, mid, |g|);
        } else {
          var k :| AnsweredSince(g, mid, k);
          AnswerOn(g, c, mid, k);
        }
      }
      forall k | AnsweredSince(h, mid, k) ensures View(h, mid) == Some(PubRec(mid)) {
        AnswerOn(g, c, mid, k);
      }
    }
  }

  lemma AnswerOn(g: seq<Change>, c: Change, mid: U16, k: int)
    ensures AnsweredSince(g + [c], mid, k) <==>
              if k == |g| then c == Received(mid)
              else AnsweredSince(g, mid, k) && c != Acknowledged(mid) && c != Forgotten
  {
    var h := g + [c];
    if AnsweredSince(h, mid, k) && k < |g| {
      forall j | k < j < |g| ensures g[j] != Acknowledged(mid) && g[j] != Forgotten {
        assert h[j] == g[j];
      }
      assert h[|g|] == c;
    }
  }

  lemma PubRecStays(g: seq<Change>, c: Change, mid: U16)
    requires Possible(g, c)
    ensures ViewAfter(View(g, mid), c, mid) == Some(PubRec(mid)) <==>
              c == Received(mid) || (View(g, mid) == Some(PubRec(mid)) && c != Acknowledged(mid) && c != Forgotten)
  {}

  /** Once PUBREC has come, its PUBLISH is not sent again while the identifier is in flight, nor is another message
      issued under it: not in this life of the session and not in any later one. */
  lemma NoPublishAfterPubrec(h: seq<Change>, mid: U16, k: nat, j: nat)
    requires Lawful(h) && k < j < |h| && h[k] == Received(mid)
    requires forall i :: k < i < j ==> h[i] != Acknowledged(mid) && h[i] != Forgotten
    ensures !(h[j].Handed? && h[j].packet.identifier == mid) && !(h[j].Issued? && h[j].mid == mid)
  {
    var g := h[..j];
    LawfulPrefix(h, j);
    assert AnsweredSince(g, mid, k);
    AnsweredMeaning(g, mid);
    assert Possible(g, h[j]);
  }

  // ----- packets and the identifiers in flight -----

  /** A PUBLISH of QoS 1 or 2 goes to the client at `j`. */
  ghost predicate Published(h: seq<Change>, j: int, p: Basics.Publish) {
    0 <= j < |h| && OfEntry(p) && Packet(h[j]) == [MQTTMessage.Publish(p)]
  }

  /** Such a packet is the message held under its identifier, or a retained message. */
  lemma PublishedIs(h: seq<Change>, j: int, p: Basics.Publish)
    requires Lawful(h) && Published(h, j, p)
    ensures h[j] == Handed(p) || h[j] == Retained(p)
    ensures h[j] == Handed(p) ==> View(h[..j], p.identifier) == Some(Reread(MQTTMessage.Publish(p)))
  {
    assert Possible(h[..j], h[j]);
  }

  /** Each PUBLISH of QoS 1 or 2 on the wire is one such packet. */
  lemma PublishOnWire(h: seq<Change>, i: nat, p: Basics.Publish) returns (j: nat)
    requires Lawful(h) && i < |Packets(h)| && Packets(h)[i] == MQTTMessage.Publish(p) && OfEntry(p)
    ensures Published(h, j, p) && |Packets(h[..j])| == i && (h[j] == Handed(p) || h[j] == Retained(p))
  {
    j := PacketOf(h, i);
    PublishedIs(h, j, p);
  }

  /** No PUBLISH packet carries the identifier of another message in flight. */
  ghost predicate Distinguished(h: seq<Change>) {
    forall j, p :: Published(h, j, p) && View(h[..j], p.identifier).Some? ==>
      View(h[..j], p.identifier) == Some(Reread(MQTTMessage.Publish(p)))
  }

  /** A retained message goes out at `j` under the identifier of another message in flight. */
  ghost predicate Clashes(h: seq<Change>, j: int) {
    && 0 <= j < |h| && h[j].Retained? && OfEntry(h[j].kept) && View(h[..j], h[j].kept.identifier).Some?
    && View(h[..j], h[j].kept.identifier) != Some(Reread(MQTTMessage.Publish(h[j].kept)))
  }

  /** The identifiers on the wire are those of the messages in flight exactly if no retained message above QoS 0 goes
      out under the identifier of one. */
  lemma DistinguishedIff(h: seq<Change>)
    requires Lawful(h)
    ensures Distinguished(h) <==> forall j :: !Clashes(h, j)
  {
    hide View, Lawful;
    forall j | Clashes(h, j) ensures !Distinguished(h) {
      assert Published(h, j, h[j].kept);
    }
    forall j, p | Published(h, j, p) && View(h[..j], p.identifier).Some?
      ensures View(h[..j], p.identifier) == Some(Reread(MQTTMessage.Publish(p))) || Clashes(h, j)
    {
      PublishedIs(h, j, p);
    }
  }

  /** While a PUBREC is held, only a retained message can go out as a PUBLISH under its identifier. */
  lemma PacketAfterPubrec(h: seq<Change>, mid: U16, k: nat, j: nat, p: Basics.Publish)
    requires Lawful(h) && k < j < |h| && h[k] == Received(mid)
    requires forall i :: k < i < j ==> h[i] != Acknowledged(mid) && h[i] != Forgotten
    requires Published(h, j, p) && p.identifier == mid
    ensures h[j] == Retained(p) && Clashes(h, j)
  {
    NoPublishAfterPubrec(h, mid, k, j);
    PublishedIs(h, j, p);
    LawfulPrefix(h, j);
    assert AnsweredSince(h[..j], mid, k);
    AnsweredMeaning(h[..j], mid);
  }

  /** Of a retained message that goes out under the identifier of a message in flight, the acknowledgement takes that
      message away, which the client never acknowledged. */
  lemma RetainedClash(q: Queue, n: U16, h: seq<Change>, p: Basics.Publish)
    requires Follows(q, n, h) && WellFormed(q) && Waits(q, p.identifier) && OfEntry(p)
    ensures var g := h + [Retained(p)] + [Acknowledged(p.identifier)];
            && Lawful(g) && View(h, p.identifier).Some? && View(g, p.identifier) == None
            && Look(Apply(q, Acknowledged(p.identifier)), p.identifier) == None
  {
    var mid := p.identifier;
    var a := h + [Retained(p)];
    assert Look(q, mid) == View(h, mid);
    LawfulStep(h, Retained(p));
    LawfulStep(a, Acknowledged(mid));
    ViewStep(h, Retained(p), mid);
    ViewStep(a, Acknowledged(mid), mid);
    ApplyLook(q, Acknowledged(mid), mid);
  }

  // ----- the dup flag on the wire -----

  /** The message issued at `k` is sent at `j`. */
  ghost predicate SentAt(h: seq<Change>, mid: U16, k: int, j: int) {
    && 0 <= k < j < |h| && h[k].Issued? && h[k].mid == mid && h[j].Handed? && h[j].packet.identifier == mid
    && forall i :: k < i < j ==> !Ends(h[i], mid)
  }

  ghost predicate SentBetween(h: seq<Change>, mid: U16, k: int, j: int)
    requires 0 <= k <= j <= |h|
  {
    exists i :: k < i < j && h[i].Handed? && h[i].packet.identifier == mid
  }

  ghost predicate MarkedBetween(h: seq<Change>, mid: U16, k: int, j: int)
    requires 0 <= k <= j <= |h|
  {
    exists i :: k < i < j && h[i] == Marked(mid)
  }

  /** The flag is set exactly when an earlier send of the message is on record, in whatever life that was. */
  lemma DupMeaning(h: seq<Change>, mid: U16, k: int, j: int)
    requires Lawful(h) && SentAt(h, mid, k, j)
    ensures h[j].packet.dup <==> MarkedBetween(h, mid, k, j)
    ensures h[j].packet.dup ==> SentBetween(h, mid, k, j)
  {
    FlagSent(h, mid, k, j);
    assert MarkedAfter(h[..j], mid, k) <==> MarkedBetween(h, mid, k, j) by { MarksBefore(h, mid, k, j); }
    if i :| k < i < j && h[i] == Marked(mid) {
      SentBeforeMark(h, mid, i);
      assert i - 1 != k;
    }
  }

  lemma FlagSent(h: seq<Change>, mid: U16, k: int, j: int)
    requires Lawful(h) && SentAt(h, mid, k, j)
    ensures h[j].packet.dup <==> MarkedAfter(h[..j], mid, k)
  {
    var g := h[..j];
    LawfulPrefix(h, j);
    var p := h[k].publish.(identifier := mid, retain := false, dup := MarkedAfter(g, mid, k));
    assert WaitsSince(g, mid, k, p);
    WaitingMeaning(g, mid, p);
    hide View, MarkedAfter;
    assert Possible(g, h[j]);
  }

  lemma MarksBefore(h: seq<Change>, mid: U16, k: int, j: int)
    requires 0 <= k <= j <= |h|
    ensures MarkedAfter(h[..j], mid, k) <==> MarkedBetween(h, mid, k, j)
  {
    var g := h[..j];
    if i :| 0 <= i < |g| && k < i && g[i] == Marked(mid) {
      assert h[i] == Marked(mid);
    }
    if i :| k < i < j && h[i] == Marked(mid) {
      assert g[i] == Marked(mid);
    }
  }

  lemma SentBeforeMark(h: seq<Change>, mid: U16, i: nat)
    requires Lawful(h) && i < |h| && h[i] == Marked(mid)
    ensures i > 0 && h[i - 1].Handed? && h[i - 1].packet.identifier == mid && !h[i - 1].packet.dup
  {
    assert Possible(h[..i], h[i]);
  }

  /** The message is sent again with dup, and only then, provided a send is on record wherever there was one. */
  lemma DupExact(h: seq<Change>, mid: U16, k: int, j: int)
    requires Lawful(h) && SentAt(h, mid, k, j)
    ensures (h[j].packet.dup <==> SentBetween(h, mid, k, j)) <==> (SentBetween(h, mid, k, j) ==> MarkedBetween(h, mid, k, j))
  {
    DupMeaning(h, mid, k, j);
  }

  /** From `from` on, every first send was put on record at once. */
  ghost predicate Unbroken(h: seq<Change>, from: int) {
    forall i :: 0 <= i < |h| && from <= i && h[i].Handed? && !h[i].packet.dup ==>
      i + 1 < |h| && h[i + 1] == Marked(h[i].packet.identifier)
  }

  /** Where no mark failed since the issue, dup says what the standard asks of it. */
  lemma DupTrue(h: seq<Change>, mid: U16, k: int, j: int)
    requires Lawful(h) && SentAt(h, mid, k, j) && Unbroken(h[..j], k)
    ensures h[j].packet.dup <==> SentBetween(h, mid, k, j)
  {
    DupMeaning(h, mid, k, j);
    if i :| k < i < j && h[i].Handed? && h[i].packet.identifier == mid {
      if h[i].packet.dup {
        assert SentAt(h, mid, k, i);
        DupMeaning(h, mid, k, i);
        var l :| k < l < i && h[l] == Marked(mid);
      } else {
        assert h[..j][i] == h[i];
        assert h[..j][i + 1] == Marked(mid) && h[i + 1] == h[..j][i + 1];
      }
    }
  }

  /** When the mark fails after the send, the next start sends the message again without dup. */
  lemma MarkFailed(m: Basics.Publish)
    requires OfEntry(m)
    ensures var p := m.(identifier := 1, dup := false);
            var h := [Drawn(1), Issued(1, m), Handed(p), Handed(p.(retain := false))];
            Lawful(h) && SentAt(h, 1, 1, 3) && SentBetween(h, 1, 1, 3) && !h[3].packet.dup
  {
    var p := m.(identifier := 1, dup := false);
    var h := [Drawn(1), Issued(1, m), Handed(p), Handed(p.(retain := false))];
    assert h[..0] == [] && h[..1] == [h[0]] && h[..2] == [h[0]] + [h[1]] && h[..3] == ([h[0]] + [h[1]]) + [h[2]];
    ViewStep([], h[0], 1);
    ViewStep([h[0]], h[1], 1);
    ViewStep([h[0]] + [h[1]], h[2], 1);
    assert h[2].Handed?;
  }

  // ----- identifiers -----

  /** How often the counter was drawn from since it last began at 1. */
  function DrawnSince(h: seq<Change>): nat {
    if h == [] || h[|h| - 1] == Renewed then 0
    else DrawnSince(h[..|h| - 1]) + if h[|h| - 1].Drawn? then 1 else 0
  }

  lemma {:induction false} CounterMeaning(h: seq<Change>)
    ensures Counter(h) == (1 + DrawnSince(h)) % 0x1_0000
  {
    if h != [] {
      CounterMeaning(h[..|h| - 1]);
    }
  }

  /** The n-th identifier since the counter began is n modulo 65536, so 0 is issued exactly at its multiples. */
  lemma IssuedNumber(h: seq<Change>, k: nat)
    requires Lawful(h) && k < |h| && h[k].Issued?
    ensures DrawnSince(h[..k]) >= 1 && h[k].mid == DrawnSince(h[..k]) % 0x1_0000
    ensures h[k].mid == 0 <==> DrawnSince(h[..k]) % 0x1_0000 == 0
  {
    assert Possible(h[..k], h[k]);
    assert h[..k][k - 1] == h[k - 1] && h[..k][..k - 1] == h[..k - 1];
    assert Possible(h[..k - 1], h[k - 1]);
    CounterMeaning(h[..k - 1]);
  }

  /** `n` messages, each acknowledged before the next. */
  function Rounds(m: Basics.Publish, n: nat): seq<Change> {
    if n == 0 then [] else Rounds(m, n - 1) + [Drawn(n % 0x1_0000)] + [Issued(n % 0x1_0000, m)] + [Acknowledged(n % 0x1_0000)]
  }

  /** One more message from an empty queue. */
  lemma RoundLawful(h: seq<Change>, m: Basics.Publish, x: U16)
    requires Lawful(h) && Counter(h) == x && 1 <= m.qos <= 2 && forall mid :: View(h, mid) == None
    ensures var g := h + [Drawn(x)] + [Issued(x, m)] + [Acknowledged(x)];
            Lawful(g) && Counter(g) == Next(x) && forall mid :: View(g, mid) == None
  {
    var a := h + [Drawn(x)];
    var b := a + [Issued(x, m)];
    CounterStep(h, Drawn(x));
    CounterStep(a, Issued(x, m));
    CounterStep(b, Acknowledged(x));
    hide View, Lawful, Counter;
    forall mid ensures View(a, mid) == None && View(b + [Acknowledged(x)], mid) == None {
      ViewStep(h, Drawn(x), mid);
      ViewStep(a, Issued(x, m), mid);
      ViewStep(b, Acknowledged(x), mid);
    }
    LawfulStep(h, Drawn(x));
    LawfulStep(a, Issued(x, m));
    LawfulStep(b, Acknowledged(x));
  }

  lemma {:induction false} RoundsLawful(m: Basics.Publish, n: nat)
    requires 1 <= m.qos <= 2
    ensures Lawful(Rounds(m, n)) && |Rounds(m, n)| == 3 * n && Counter(Rounds(m, n)) == (n + 1) % 0x1_0000
    ensures forall mid :: View(Rounds(m, n), mid) == None
  {
    if n > 0 {
      RoundsLawful(m, n - 1);
      hide View, Lawful, Counter, Next;
      NextNumber(n);
      RoundLawful(Rounds(m, n - 1), m, n % 0x1_0000);
    }
  }

  lemma NextNumber(n: nat)
    ensures Next(n % 0x1_0000) == (n + 1) % 0x1_0000
  {}

  /** With each message acknowledged at once, the 65536th goes out under identifier 0, which section 2.3.1 of
      MQTT 3.1.1 forbids. */
  lemma ZeroIssued(m: Basics.Publish)
    requires 1 <= m.qos <= 2
    ensures Lawful(Rounds(m, 0x1_0000)) && |Rounds(m, 0x1_0000)| == 3 * 0x1_0000
    ensures Rounds(m, 0x1_0000)[3 * 0x1_0000 - 2] == Issued(0, m)
  {
    RoundsLawful(m, 0x1_0000);
    RoundsLawful(m, 0x1_0000 - 1);
  }
}
