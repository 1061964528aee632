/** What a session does, event by event, as it shows to its clients and to the router. */
module Story {
  import opened Basics
  import opened Messages
  import opened Outgoing
  import opened History
  import opened Incoming
  import G = Generations

  datatype SessionEvent =
    | Internal(session: SessionId, delivery: MQTTMessage)
    | FromClient(message: MQTTMessage)
    | NewClient(cleanSession: bool)

  /** The session under its identity: whether a client is there, what happened to its outgoing messages and what went to
      the client, what it passed on, and what went to the router. */
  datatype Trace = Trace(
    who: SessionId, subscriptions: set<Str>, client: bool,
    changes: seq<Change>, receipts: seq<Receipt>, routed: seq<G.RouterMessage>)

  // ----- packets and forwards -----

  function ForwardIn(m: G.RouterMessage): seq<Publish> {
    if m.ForwardPublish? then [m.message] else []
  }

  /** The publishes among the messages to the router. */
  function ForwardsIn(ms: seq<G.RouterMessage>): seq<Publish> {
    if ms == [] then [] else ForwardsIn(ms[..|ms| - 1]) + ForwardIn(ms[|ms| - 1])
  }

  lemma ForwardsInStep(ms: seq<G.RouterMessage>, m: G.RouterMessage)
    ensures ForwardsIn(ms + [m]) == ForwardsIn(ms) + ForwardIn(m)
    ensures !m.ForwardPublish? ==> ForwardsIn(ms + [m]) == ForwardsIn(ms)
  {
    assert (ms + [m])[..|ms|] == ms;
    assert ForwardsIn(ms) + [] == ForwardsIn(ms);
  }

  lemma {:induction false} ForwardsInAppend(a: seq<G.RouterMessage>, b: seq<G.RouterMessage>)
    ensures ForwardsIn(a + b) == ForwardsIn(a) + ForwardsIn(b)
    decreases |b|
  {
    hide ForwardIn;
    var c := a + b;
    if b == [] {
      assert c == a;
    } else {
      var init, last := b[..|b| - 1], b[|b| - 1];
      ForwardsInAppend(a, init);
      assert c[..|c| - 1] == a + init && c[|c| - 1] == last;
      assert ForwardsIn(a) + ForwardsIn(init) + ForwardIn(last) == ForwardsIn(a) + (ForwardsIn(init) + ForwardIn(last));
    }
  }

  /** How often a QoS 2 publish of one identifier can go to the router in all, if nothing went before. */
  lemma RoutedBound(receipts: seq<Receipt>, routed: seq<G.RouterMessage>)
    requires Orderly(receipts) && Forwards(receipts) == Forwards([]) + ForwardsIn(routed)
    ensures forall mid: U16 ::
              Times(ForwardsIn(routed), mid) <= Closings(receipts, mid) + if mid in Open(receipts) then 1 else 0
  {
    hide Orderly, Times, Closings, Open, ForwardsIn;
    assert Forwards([]) + ForwardsIn(routed) == ForwardsIn(routed);
    forall mid: U16
      ensures Times(ForwardsIn(routed), mid) <= Closings(receipts, mid) + if mid in Open(receipts) then 1 else 0
    {
      ForwardsBound(receipts, mid);
    }
  }

  /** `pre` happens, then `out` goes to the client; nothing of it where there is none, or where it is lost. */
  ghost predicate Sends(was: bool, before: seq<Change>, pre: seq<Change>, out: seq<Change>, here: bool, after: seq<Change>) {
    && (here ==> was) && (out == [] ==> here == was)
    && after == before + pre + if here then out else []
  }

  /** `out` goes to the client, packet by packet, up to the one at which it is lost. */
  ghost predicate Goes(was: bool, before: seq<Change>, out: seq<Change>, here: bool, after: seq<Change>) {
    (was && here && after == before + out) || (!here && exists k :: SentTo(before, out, k, after))
  }

  ghost predicate SentTo(before: seq<Change>, out: seq<Change>, k: int, after: seq<Change>) {
    0 <= k < |out| && after == before + out[..k]
  }

  // ----- subscribes -----

  /** What the router answers to a subscribe; any answer is possible here. */
  datatype SubscribeAnswer = SubscribeAnswer(ret: Byte, retained: seq<Publish>)

  const NO_ANSWER := SubscribeAnswer(0x80, [])

  /** The QoS asked for wherever the router did not refuse. */
  function CodesOf(filters: seq<(Str, Byte)>, got: seq<SubscribeAnswer>): seq<Byte>
    requires |got| == |filters|
  {
    if filters == [] then []
    else
      var i := |filters| - 1;
      CodesOf(filters[..i], got[..i]) + [if got[i].ret != 0x80 then filters[i].1 else 0x80]
  }

  /** A return code is what the router answered, unless the router kept another QoS than the one asked for. */
  lemma {:induction false} CodeExact(filters: seq<(Str, Byte)>, got: seq<SubscribeAnswer>, i: nat)
    requires |got| == |filters| && i < |filters|
    ensures |CodesOf(filters, got)| == |filters|
    ensures CodesOf(filters, got)[i] == (if got[i].ret != 0x80 then filters[i].1 else 0x80)
    ensures CodesOf(filters, got)[i] == got[i].ret <==> got[i].ret == filters[i].1 || got[i].ret == 0x80
  {
    var n := |filters| - 1;
    if n > 0 {
      CodeExact(filters[..n], got[..n], if i < n then i else 0);
    }
  }

  function RetainedOf(got: seq<SubscribeAnswer>): seq<Publish> {
    if got == [] then []
    else
      var i := |got| - 1;
      RetainedOf(got[..i]) + if got[i].ret != 0x80 then got[i].retained else []
  }

  /** The retained messages of the answers that were not refused, answer after answer. */
  lemma {:induction false} RetainedMeaning(got: seq<SubscribeAnswer>, i: nat)
    requires i < |got|
    ensures |RetainedOf(got[..i])| <= |RetainedOf(got[..i + 1])| <= |RetainedOf(got)| && RetainedOf([]) == []
    ensures RetainedOf(got)[|RetainedOf(got[..i])|..|RetainedOf(got[..i + 1])|] ==
              if got[i].ret != 0x80 then got[i].retained else []
    decreases |got|
  {
    var n := |got| - 1;
    if i == n {
      assert got[..i + 1] == got;
    } else {
      var init := got[..n];
      RetainedMeaning(init, i);
      assert init[..i] == got[..i] && init[..i + 1] == got[..i + 1] && init[i] == got[i];
      assert RetainedOf(init) <= RetainedOf(got);
    }
  }

  function Keeps(ms: seq<Publish>): (cs: seq<Change>)
    ensures |cs| == |ms| && forall i :: 0 <= i < |ms| ==> cs[i] == Retained(ms[i])
  {
    seq(|ms|, i requires 0 <= i < |ms| => Retained(ms[i]))
  }

  /** The SUBACK, then the retained messages. */
  function SubscribePackets(mid: U16, filters: seq<(Str, Byte)>, got: seq<SubscribeAnswer>): seq<Change>
    requires |got| == |filters|
  {
    [Other(SubAck(mid, CodesOf(filters, got)))] + Keeps(RetainedOf(got))
  }

  /** Of the answer to a subscribe, exactly those messages go out under the identifier of another one in flight that are
      kept with a QoS above 0 and an identifier of the queue. */
  lemma AnswerClashes(q: Queue, n: U16, h: seq<Change>, suback: MQTTMessage, ps: seq<Publish>, i: nat)
    requires Follows(q, n, h) && i < |ps|
    ensures var mid := ps[i].identifier;
            Clashes(h + [Other(suback)] + Keeps(ps), |h| + 1 + i) <==>
              OfEntry(ps[i]) && mid in Ids(q) && Look(q, mid) != Some(Reread(MQTTMessage.Publish(ps[i])))
  {
    hide Lawful, Counter, Reread, Ids, Position;
    var mid, a, g := ps[i].identifier, h + [Other(suback)], h + [Other(suback)] + Keeps(ps);
    InIds(q, mid);
    assert Look(q, mid) == View(h, mid);
    ViewStep(h, Other(suback), mid);
    KeepsView(a, ps, i, mid);
    assert g[..|h| + 1 + i] == a + Keeps(ps)[..i] && g[|h| + 1 + i] == Retained(ps[i]);
    hide View;
  }

  lemma {:induction false} KeepsView(h: seq<Change>, ps: seq<Publish>, i: nat, mid: U16)
    requires i <= |ps|
    ensures View(h + Keeps(ps)[..i], mid) == View(h, mid)
  {
    var cs := Keeps(ps);
    if i == 0 {
      assert h + cs[..0] == h;
    } else {
      KeepsView(h, ps, i - 1, mid);
      assert h + cs[..i] == h + cs[..i - 1] + [cs[i - 1]];
      ViewStep(h + cs[..i - 1], cs[i - 1], mid);
    }
  }

  /** What a SUBSCRIBE is answered with: one SUBACK with a code for each filter, then the retained messages, all of them
      unless the client is lost. */
  ghost predicate Answers(packets: seq<MQTTMessage>, mid: U16, filters: seq<(Str, Byte)>, got: seq<SubscribeAnswer>, here: bool) {
    && |packets| <= 1 + |RetainedOf(got)| && (here ==> |packets| == 1 + |RetainedOf(got)|)
    && (packets != [] ==>
          && packets[0].SubAck? && packets[0].mid == mid && |packets[0].codes| == |filters| == |got|
          && forall i :: 0 <= i < |filters| ==> packets[0].codes[i] == if got[i].ret != 0x80 then filters[i].1 else 0x80)
    && forall k :: 0 < k < |packets| ==> packets[k] == MQTTMessage.Publish(RetainedOf(got)[k - 1])
  }

  lemma AnswersIs(packets: seq<MQTTMessage>, mid: U16, filters: seq<(Str, Byte)>, got: seq<SubscribeAnswer>, here: bool)
    requires |got| == |filters|
    requires |packets| <= 1 + |RetainedOf(got)| && (here ==> |packets| == 1 + |RetainedOf(got)|)
    requires packets != [] ==> packets[0] == SubAck(mid, CodesOf(filters, got))
    requires forall k :: 0 < k < |packets| ==> packets[k] == MQTTMessage.Publish(RetainedOf(got)[k - 1])
    ensures Answers(packets, mid, filters, got, here)
  {
    hide RetainedOf;
    if packets != [] {
      CodesSize(filters, got);
      forall i | 0 <= i < |filters| ensures packets[0].codes[i] == if got[i].ret != 0x80 then filters[i].1 else 0x80 {
        CodeExact(filters, got, i);
      }
    }
  }

  lemma {:induction false} CodesSize(filters: seq<(Str, Byte)>, got: seq<SubscribeAnswer>)
    requires |got| == |filters|
    ensures |CodesOf(filters, got)| == |filters|
  {
    if filters != [] {
      CodesSize(filters[..|filters| - 1], got[..|filters| - 1]);
    }
  }

  function SubscribesOf(s: SessionId, filters: seq<(Str, Byte)>): seq<G.RouterMessage> {
    if filters == [] then []
    else SubscribesOf(s, filters[..|filters| - 1]) + [G.Subscribe(s, filters[|filters| - 1].0, filters[|filters| - 1].1)]
  }

  /** One subscribe for each filter, in order, each with the QoS asked for. */
  lemma {:induction false} SubscribesMeaning(s: SessionId, filters: seq<(Str, Byte)>)
    ensures |SubscribesOf(s, filters)| == |filters|
    ensures forall i :: 0 <= i < |filters| ==> SubscribesOf(s, filters)[i] == G.Subscribe(s, filters[i].0, filters[i].1)
  {
    if filters != [] {
      SubscribesMeaning(s, filters[..|filters| - 1]);
    }
  }

  /** The router was asked for each filter, in order, with the QoS wanted. */
  ghost predicate AskedFor(before: seq<G.RouterMessage>, after: seq<G.RouterMessage>, s: SessionId, filters: seq<(Str, Byte)>) {
    && |after| == |before| + |filters| && after[..|before|] == before
    && forall i :: 0 <= i < |filters| ==> after[|before| + i] == G.Subscribe(s, filters[i].0, filters[i].1)
  }

  lemma AskedIs(before: seq<G.RouterMessage>, s: SessionId, filters: seq<(Str, Byte)>)
    ensures AskedFor(before, before + SubscribesOf(s, filters), s, filters)
  {
    SubscribesMeaning(s, filters);
  }

  /** The subscribes that got through to the router. */
  function SubscribesThrough(s: SessionId, filters: seq<(Str, Byte)>, through: seq<bool>): seq<G.RouterMessage>
    requires |through| == |filters|
  {
    if filters == [] then []
    else
      var i := |filters| - 1;
      SubscribesThrough(s, filters[..i], through[..i]) +
        if through[i] then [G.Subscribe(s, filters[i].0, filters[i].1)] else []
  }

  lemma NothingAsked(s: SessionId)
    ensures CodesOf([], []) == [] && RetainedOf([]) == [] && SubscribesOf(s, []) == [] && SubscribesThrough(s, [], []) == []
  {}

  lemma AnswerStep(s: SessionId, filters: seq<(Str, Byte)>, i: nat, got: seq<SubscribeAnswer>, a: SubscribeAnswer)
    requires i < |filters| && |got| == i
    ensures CodesOf(filters[..i + 1], got + [a]) == CodesOf(filters[..i], got) + [if a.ret != 0x80 then filters[i].1 else 0x80]
    ensures RetainedOf(got + [a]) == RetainedOf(got) + if a.ret != 0x80 then a.retained else []
    ensures SubscribesOf(s, filters[..i + 1]) == SubscribesOf(s, filters[..i]) + [G.Subscribe(s, filters[i].0, filters[i].1)]
  {
    assert filters[..i + 1][..i] == filters[..i] && (got + [a])[..i] == got;
  }

  /** Where all got through they are all of them, and each that did is there. */
  lemma {:induction false} ThroughMeaning(s: SessionId, filters: seq<(Str, Byte)>, through: seq<bool>)
    requires |through| == |filters|
    ensures (forall i :: 0 <= i < |filters| ==> through[i]) ==> SubscribesThrough(s, filters, through) == SubscribesOf(s, filters)
    ensures |SubscribesThrough(s, filters, through)| <= |filters|
    ensures forall m :: m in SubscribesThrough(s, filters, through) <==>
              exists i :: 0 <= i < |filters| && through[i] && m == G.Subscribe(s, filters[i].0, filters[i].1)
  {
    if filters != [] {
      var n := |filters| - 1;
      var f, t := filters[..n], through[..n];
      ThroughMeaning(s, f, t);
      assert forall i :: 0 <= i < n ==> f[i] == filters[i] && t[i] == through[i];
      forall m ensures m in SubscribesThrough(s, filters, through) <==>
        exists i :: 0 <= i < |filters| && through[i] && m == G.Subscribe(s, filters[i].0, filters[i].1)
      {
        if through[n] && m == G.Subscribe(s, filters[n].0, filters[n].1) {
        } else if i :| 0 <= i < |filters| && through[i] && m == G.Subscribe(s, filters[i].0, filters[i].1) {
          assert t[i] && m == G.Subscribe(s, f[i].0, f[i].1);
        }
      }
    }
  }

  lemma ThroughStep(s: SessionId, filters: seq<(Str, Byte)>, i: nat, through: seq<bool>, x: bool)
    requires i < |filters| && |through| == i
    ensures SubscribesThrough(s, filters[..i + 1], through + [x]) ==
            SubscribesThrough(s, filters[..i], through) + if x then [G.Subscribe(s, filters[i].0, filters[i].1)] else []
  {
    assert filters[..i + 1][..i] == filters[..i] && (through + [x])[..i] == through;
  }

  // ----- deliveries and publishes -----

  /** The program's test for the two QoS levels that are queued. */
  predicate Queued(m: Publish) {
    m.qos == 1 || m.qos == 2
  }

  /** A client gets topic, payload, QoS and retain flag of the delivery, no dup, and the identifier drawn for it if its
      QoS asks for one. */
  ghost predicate DeliveredAs(p: Publish, m: Publish, mid: U16) {
    && p.topic == m.topic && p.message == m.message && p.qos == m.qos && p.retain == m.retain && !p.dup
    && p.identifier == if 1 <= m.qos <= 2 then mid else m.identifier
  }

  /** One packet more went out: the delivery. */
  ghost predicate HandedAs(before: seq<MQTTMessage>, after: seq<MQTTMessage>, m: Publish, mid: U16) {
    && |after| == |before| + 1 && after[..|before|] == before && after[|before|].Publish?
    && DeliveredAs(after[|before|].publish, m, mid)
  }

  lemma HandedIs(before: seq<MQTTMessage>, m: Publish, mid: U16)
    ensures HandedAs(before, before + [MQTTMessage.Publish(Delivered(m, mid))], m, mid)
    ensures Queued(Delivered(m, mid)) == Queued(m) == Queued(m.(dup := false)) && !Delivered(m, mid).dup
    ensures Delivered(m.(dup := false), mid) == Delivered(m, mid) && Queueing(m.(dup := false), mid) == Queueing(m, mid)
  {}

  /** The queue gains the delivery at its end if its QoS asks for that, with dup once it is out; nothing else in it changes. */
  ghost predicate KeptAs(before: Queue, after: Queue, m: Publish, mid: U16, handed: bool) {
    if 1 <= m.qos <= 2
    then && |after| == |before| + 1 && after[..|before|] == before && after[|before|].Publish?
         && (after[|before|].publish.dup <==> handed)
         && DeliveredAs(after[|before|].publish.(dup := false), m, mid)
    else after == before
  }

  /** A delivery as it goes out: without dup, under its own identifier if it is queued. */
  function Delivered(m: Publish, mid: U16): (p: Publish)
    ensures DeliveredAs(p, m, mid)
  {
    m.(dup := false, identifier := if Queued(m) then mid else m.identifier)
  }

  function Queueing(m: Publish, mid: U16): seq<Change> {
    if Queued(m) then [Drawn(mid), Issued(mid, m.(dup := false))] else []
  }

  /** A message under its identifier goes out, and if it is queued, that is put on record. */
  function HandOuts(m: Publish): seq<Change> {
    if Queued(m) then [Handed(m), Marked(m.identifier)] else [Other(MQTTMessage.Publish(m))]
  }

  /** How a publish of the client is acknowledged. */
  function Acks(m: Publish): seq<Change> {
    if m.qos == 1 then [Other(PubAck(m.identifier))]
    else if m.qos == 2 then [Other(PubRec(m.identifier))]
    else []
  }

  /** What passing on a message adds to the receipts. */
  function Relay(m: Publish): Receipt {
    if m.qos == 2 then Passed(m) else Relayed(m)
  }

  function Named(topics: seq<Str>): (s: set<Str>)
    ensures forall t :: t in s <==> t in topics
  {
    set i | 0 <= i < |topics| :: topics[i]
  }

  function Filters(filters: seq<(Str, Byte)>): (s: set<Str>)
    ensures forall t :: t in s <==> exists i :: 0 <= i < |filters| && filters[i].0 == t
  {
    set i | 0 <= i < |filters| :: filters[i].0
  }

  // ----- an event that the session survives -----

  ghost predicate PublishStep(a: Trace, m: Publish, b: Trace) {
    var again, passed := m.qos == 2 && m.identifier in Open(a.receipts), m.(dup := false);
    && b == a.(client := b.client, changes := b.changes,
               receipts := a.receipts + (if again then [] else [Relay(passed)]),
               routed := a.routed + (if again then [] else [G.ForwardPublish(passed)]))
    && Sends(a.client, a.changes, [], Acks(m), b.client, b.changes)
  }

  ghost predicate SubscribeStep(a: Trace, mid: U16, filters: seq<(Str, Byte)>, got: seq<SubscribeAnswer>, b: Trace) {
    && |got| == |filters|
    && b == a.(client := b.client, changes := b.changes, subscriptions := a.subscriptions + Filters(filters),
               routed := a.routed + SubscribesOf(a.who, filters))
    && Goes(a.client, a.changes, SubscribePackets(mid, filters, got), b.client, b.changes)
  }

  /** A message of the client: its answer, what goes to the router, and the histories. */
  ghost predicate ClientStep(a: Trace, message: MQTTMessage, b: Trace) {
    match message
    case Publish(m) => PublishStep(a, m, b)
    case PubAck(mid) => b == a.(changes := a.changes + [Acknowledged(mid)])
    case PubComp(mid) => b == a.(changes := a.changes + [Acknowledged(mid)])
    case PubRec(mid) =>
      && b == a.(client := b.client, changes := b.changes)
      && Sends(a.client, a.changes, [Received(mid)], [Other(PubRel(mid))], b.client, b.changes)
    case PubRel(mid) =>
      && b == a.(client := b.client, changes := b.changes, receipts := a.receipts + [Released(mid)])
      && Sends(a.client, a.changes, [], [Other(PubComp(mid))], b.client, b.changes)
    case Subscribe(mid, filters) => exists got :: SubscribeStep(a, mid, filters, got, b)
    case Unsubscribe(mid, topics) =>
      && b == a.(client := b.client, changes := b.changes, subscriptions := a.subscriptions - Named(topics),
                 routed := a.routed + [G.Unsubscribe(a.who, Named(topics))])
      && Sends(a.client, a.changes, [], [Other(UnsubAck(mid))], b.client, b.changes)
    case _ => b == a
  }

  /** A delivery under the own generation. */
  ghost predicate DeliveryStep(a: Trace, m: Publish, mid: U16, b: Trace) {
    && b == a.(client := b.client, changes := b.changes)
    && Sends(a.client, a.changes, Queueing(m, mid), HandOuts(Delivered(m, mid)), b.client, b.changes)
  }

  /** Only a clean session that failed is not accepted. */
  function CodeOf(cleanSession: bool, cleared: bool): ReturnCode {
    if cleanSession && !cleared then ServerUnavailable else Accepted
  }

  function ConnAcked(connacked: bool, code: ReturnCode, present: bool): seq<Change> {
    if connacked then [Other(ConnAck(code, present))] else []
  }

  function Parting(parted: bool): seq<Change> {
    if parted then [Other(Disconnect)] else []
  }

  function Clearing(cleared: bool): seq<Change> {
    if cleared then [Forgotten, Renewed] else []
  }

  /** How a connect came out: whether the client before got its DISCONNECT, whether the queue was emptied, whether the
      new client got its CONNACK, what that said, and how many entries of the queue followed. */
  datatype Connect = Connect(parted: bool, cleared: bool, connacked: bool, present: bool, k: int)

  ghost predicate ConnectStep(start: Queue, a: Trace, clean: bool, c: Connect, b: Trace) {
    var q := if c.cleared then [] else Fold(start, a.changes);
    && 0 <= c.k <= |q| && (!c.connacked ==> c.k == 0) && (c.cleared ==> clean && !c.present) && (c.parted ==> a.client)
    && (b.client <==> c.connacked && c.k == |q|)
    && b.changes == a.changes + Parting(c.parted) + Clearing(c.cleared) +
                    ConnAcked(c.connacked, CodeOf(clean, c.cleared), c.present) + Handings(q[..c.k])
    && (if c.cleared
        then b.who == a.who.(generation := a.who.generation + 1) && b.subscriptions == {} &&
             b.routed == a.routed + [G.Unsubscribe(a.who, a.subscriptions)] && b.receipts == a.receipts + [Reset]
        else b.who == a.who && b.subscriptions == a.subscriptions && b.routed == a.routed &&
             (b.receipts == a.receipts || (clean && b.receipts == a.receipts + [Reset])))
  }

  ghost predicate EventStep(start: Queue, a: Trace, e: SessionEvent, b: Trace) {
    match e
    case Internal(session, delivery) =>
      if session.generation == a.who.generation && delivery.Publish?
      then exists mid :: DeliveryStep(a, delivery.publish, mid, b) else b == a
    case FromClient(message) => ClientStep(a, message, b)
    case NewClient(clean) => exists c :: ConnectStep(start, a, clean, c, b)
  }

  // ----- an event that the session gives up over -----

  /** A delivery whose identifier, row or mark could not be stored: it goes as far as it gets, and never stops after the
      message is queued and before it is sent. */
  ghost predicate DeliveryFails(a: Trace, m: Publish, mid: U16, k: int, b: Trace) {
    && Queued(m) && 0 <= k <= 4 && k != 2 && (k >= 3 ==> a.client)
    && b == a.(changes := a.changes + (Queueing(m, mid) + HandOuts(Delivered(m, mid)))[..k])
  }

  lemma DeliveryBreaks(a: Trace, m: Publish, mid: U16, k: int, b: Trace)
    requires Queued(m) && b == a.(changes := b.changes)
    requires || (k == 0 && b.changes == a.changes)
             || (k == 1 && b.changes == a.changes + [Drawn(mid)])
             || (k == 3 && a.client && b.changes == a.changes + Queueing(m, mid) + [Handed(Delivered(m, mid))])
             || (k == 4 && a.client && b.changes == a.changes + Queueing(m, mid) + HandOuts(Delivered(m, mid)))
    ensures DeliveryFails(a, m, mid, k, b)
  {
    var all := Queueing(m, mid) + HandOuts(Delivered(m, mid));
    assert all == [Drawn(mid), Issued(mid, m.(dup := false)), Handed(Delivered(m, mid)), Marked(mid)];
    assert all[..3] == Queueing(m, mid) + [Handed(Delivered(m, mid))] && all[..1] == [Drawn(mid)];
    assert k == 0 ==> a.changes + all[..0] == a.changes;
  }

  /** The router failed for some of the filters; the answer goes out all the same. */
  ghost predicate SubscribeFails(a: Trace, mid: U16, filters: seq<(Str, Byte)>, got: seq<SubscribeAnswer>, through: seq<bool>,
                                 b: Trace)
  {
    && |got| == |filters| == |through|
    && b == a.(client := b.client, changes := b.changes, subscriptions := a.subscriptions + Filters(filters),
               routed := a.routed + SubscribesThrough(a.who, filters, through))
    && Goes(a.client, a.changes, SubscribePackets(mid, filters, got), b.client, b.changes)
  }

  ghost predicate ClientFails(a: Trace, message: MQTTMessage, b: Trace) {
    match message
    case Publish(m) =>
      var passed := m.(dup := false);
      || b == a
      || (m.qos == 2 && m.identifier !in Open(a.receipts) &&
          b == a.(receipts := a.receipts + [Passed(passed), Missed(m.identifier)],
                  routed := a.routed + [G.ForwardPublish(passed)]))
    case PubAck(_) => b == a
    case PubComp(_) => b == a
    case PubRec(mid) => b == a || b == a.(changes := a.changes + [Lost(mid)])
    case PubRel(_) => b == a
    case Subscribe(mid, filters) => exists got, through :: SubscribeFails(a, mid, filters, got, through, b)
    case Unsubscribe(_, topics) => b == a.(subscriptions := a.subscriptions - Named(topics))
    case _ => false
  }

  /** A clean session that failed, or a mark that failed in the replay. */
  ghost predicate ConnectFails(start: Queue, a: Trace, clean: bool, parted: bool, forgot: bool, present: bool, b: Trace) {
    var q := if forgot then [] else Fold(start, a.changes);
    var base := a.changes + Parting(parted) + if forgot then [Forgotten] else [];
    && (parted ==> a.client) && (forgot ==> clean)
    && base <= b.changes
    && (b.changes <= base + [Other(ConnAck(Accepted, present))] + Handings(q) ||
        (clean && b.changes <= base + [Other(ConnAck(ServerUnavailable, present))] + Handings(q)))
    && (b.receipts == a.receipts || (clean && b.receipts == a.receipts + [Reset]))
    && (b.routed == a.routed || (forgot && b.routed == a.routed + [G.Unsubscribe(a.who, a.subscriptions)]))
    && (!forgot ==> b.who == a.who && b.subscriptions == a.subscriptions)
  }

  ghost predicate FailStep(start: Queue, a: Trace, e: SessionEvent, b: Trace) {
    match e
    case Internal(session, delivery) =>
      session.generation == a.who.generation && delivery.Publish? &&
      exists mid, k :: DeliveryFails(a, delivery.publish, mid, k, b)
    case FromClient(message) => ClientFails(a, message, b)
    case NewClient(clean) => exists parted, forgot, present :: ConnectFails(start, a, clean, parted, forgot, present, b)
  }

  /** Before the CONNACK: the client before may have got its DISCONNECT; a clean session succeeded, failed with the queue
      forgotten, or failed before that. */
  ghost predicate Prepared(before: Trace, clean: bool, ok: bool, parted: bool, forgot: bool, a: Trace) {
    && (parted ==> before.client) && (!ok ==> clean) && (forgot ==> !ok) && !a.client
    && a.changes == before.changes + Parting(parted) + (if forgot then [Forgotten] else Clearing(clean && ok))
    && (if clean && ok
        then a == Trace(before.who.(generation := before.who.generation + 1), {}, false, a.changes, before.receipts + [Reset],
                        before.routed + [G.Unsubscribe(before.who, before.subscriptions)])
        else (a.receipts == before.receipts || (clean && a.receipts == before.receipts + [Reset])))
    && (!(clean && ok) && !forgot ==> a == before.(client := false, changes := a.changes, receipts := a.receipts))
    && (forgot ==> a.routed == before.routed || a.routed == before.routed + [G.Unsubscribe(before.who, before.subscriptions)])
  }

  /** The CONNACK went out, if the client was there to take it, and the first `k` entries of the queue behind it. */
  ghost predicate Greeted(before: seq<Change>, after: seq<Change>, q: Queue, queue: Queue,
                          connacked: bool, code: ReturnCode, wasClean: bool, k: int) {
    && 0 <= k <= |q| && (!connacked ==> k == 0) && queue == DupFirst(q, k)
    && after == before + ConnAcked(connacked, code, !wasClean) + Handings(q[..k])
  }

  /** A connect in full: the CONNACK says whether the session was there before, and what was sent again is marked. */
  ghost predicate Attended(start: Queue, before: Trace, wasClean: bool, clean: bool, c: Connect, b: Trace, queue: Queue) {
    var q := if c.cleared then [] else Fold(start, before.changes);
    && ConnectStep(start, before, clean, c, b)
    && c.present == (!c.cleared && !wasClean) && 0 <= c.k <= |q| && queue == DupFirst(q, c.k)
  }

  /** A connect that is survived; all is sent if it succeeds. */
  ghost predicate Connected(start: Queue, before: Trace, wasClean: bool, clean: bool, ok: bool, b: Trace, queue: Queue) {
    exists c :: Attended(start, before, wasClean, clean, c, b, queue) && (ok ==> c.connacked && c.cleared == clean && b.client)
  }

  lemma ConnectedIs(start: Queue, before: Trace, wasClean: bool, clean: bool, ok: bool, parted: bool,
                    connacked: bool, all: bool, code: ReturnCode, nowClean: bool, a: Trace, b: Trace, queue: Queue)
    requires Prepared(before, clean, ok, parted, false, a) && code == (if ok then Accepted else ServerUnavailable)
    requires nowClean == ((clean && ok) || wasClean)
    requires var q := if clean && ok then [] else Fold(start, before.changes);
             exists k :: Greeted(a.changes, b.changes, q, queue, connacked, code, nowClean, k) && (all <==> k == |q|)
    requires b == a.(client := b.client, changes := b.changes) && (b.client <==> connacked && all)
    ensures EventStep(start, before, NewClient(clean), b)
    ensures Connected(start, before, wasClean, clean, ok && connacked && all, b, queue)
  {
    hide Fold, Handings, DupFirst;
    var q := if clean && ok then [] else Fold(start, before.changes);
    var k :| Greeted(a.changes, b.changes, q, queue, connacked, code, nowClean, k) && (all <==> k == |q|);
    var c := Connect.Connect(parted, clean && ok, connacked, !nowClean, k);
    assert ConnectStep(start, before, clean, c, b);
    assert Attended(start, before, wasClean, clean, c, b, queue);
  }

  /** What a connect puts on the wire, from the DISCONNECT to the client before to the last entry sent again. */
  lemma ConnectPackets(start: Queue, before: Trace, clean: bool, c: Connect, b: Trace)
    requires ConnectStep(start, before, clean, c, b)
    ensures var q := if c.cleared then [] else Fold(start, before.changes);
            && 0 <= c.k <= |q| && ReplayedAs(Replay(q)[..c.k], q)
            && Packets(b.changes) == Packets(before.changes) + (if c.parted then [MQTTMessage.Disconnect] else []) +
                 (if c.connacked then [ConnAck(CodeOf(clean, c.cleared), c.present)] else []) + Replay(q)[..c.k]
  {
    hide Packets, Handings, Replay, Resent, Fold, ReplayedAs, Parting, Clearing, ConnAcked, CodeOf;
    var q := if c.cleared then [] else Fold(start, before.changes);
    var x := before.changes + Parting(c.parted);
    var y := x + Clearing(c.cleared);
    var z := y + ConnAcked(c.connacked, CodeOf(clean, c.cleared), c.present);
    ReplayIs(q, c.k);
    HandingsPackets(q[..c.k]);
    assert Replay(q[..c.k]) == Replay(q)[..c.k] by { ReplayPrefix(q, c.k); }
    PartPackets(c, CodeOf(clean, c.cleared));
    PacketsAppend(before.changes, Parting(c.parted));
    PacketsAppend(x, Clearing(c.cleared));
    PacketsAppend(y, ConnAcked(c.connacked, CodeOf(clean, c.cleared), c.present));
    PacketsAppend(z, Handings(q[..c.k]));
    assert b.changes == z + Handings(q[..c.k]);
  }

  /** What a connect that succeeds sends: DISCONNECT to the client before if that still takes it, the CONNACK, and the
      whole queue. */
  ghost predicate Welcomed(packets: seq<MQTTMessage>, q: Queue, present: bool) {
    exists n: nat :: WelcomedAfter(packets, n, q, present)
  }

  ghost predicate WelcomedAfter(packets: seq<MQTTMessage>, n: nat, q: Queue, present: bool) {
    && n <= 1 && |packets| == n + 1 + |q| && (n == 1 ==> packets[0] == MQTTMessage.Disconnect)
    && packets[n] == ConnAck(Accepted, present) && ReplayedAs(packets[n + 1..], q)
  }

  lemma WelcomedIs(start: Queue, before: Trace, wasClean: bool, clean: bool, b: Trace, queue: Queue)
    requires Connected(start, before, wasClean, clean, true, b, queue)
    ensures var was, now, q := Packets(before.changes), Packets(b.changes), if clean then [] else Fold(start, before.changes);
            was <= now && Welcomed(now[|was|..], q, !clean && !wasClean)
  {
    hide Packets, Fold, Replay, ReplayedAs, Handings, DupFirst, Welcomed, CodesOf, RetainedOf, Sends, Goes, Open;
    var c :| Attended(start, before, wasClean, clean, c, b, queue) && c.connacked && c.cleared == clean && b.client;
    ConnectPackets(start, before, clean, c, b);
    var q := if clean then [] else Fold(start, before.changes);
    ReplayIs(q, |q|);
    WelcomedTail(Packets(before.changes), if c.parted then [MQTTMessage.Disconnect] else [], !clean && !wasClean,
                 Replay(q)[..|q|], q);
  }

  lemma WelcomedTail(was: seq<MQTTMessage>, left: seq<MQTTMessage>, present: bool, replay: seq<MQTTMessage>, q: Queue)
    requires (left == [] || left == [MQTTMessage.Disconnect]) && ReplayedAs(replay, q) && |replay| == |q|
    ensures var now := was + left + [ConnAck(Accepted, present)] + replay; was <= now && Welcomed(now[|was|..], q, present)
  {
    hide ReplayedAs;
    var now, tail := was + left + [ConnAck(Accepted, present)] + replay, left + [ConnAck(Accepted, present)] + replay;
    assert now == was + tail;
    assert now[|was|..] == tail;
    assert tail[|left| + 1..] == replay;
    assert WelcomedAfter(tail, |left|, q, present);
  }

  lemma ReplayPrefix(q: Queue, k: nat)
    requires k <= |q|
    ensures Replay(q[..k]) == Replay(q)[..k]
  {}

  lemma PartPackets(c: Connect, code: ReturnCode)
    ensures Packets(Parting(c.parted)) == if c.parted then [MQTTMessage.Disconnect] else []
    ensures Packets(Clearing(c.cleared)) == []
    ensures Packets(ConnAcked(c.connacked, code, c.present)) == if c.connacked then [ConnAck(code, c.present)] else []
  {
    PacketsStep([], Other(MQTTMessage.Disconnect));
    PacketsStep([], Other(ConnAck(code, c.present)));
    PacketsStep([], Forgotten);
    PacketsStep([Forgotten], Renewed);
    assert [Forgotten] + [Renewed] == [Forgotten, Renewed];
    assert forall x: Change :: [] + [x] == [x];
  }

  lemma ConnectBreaks(start: Queue, before: Trace, clean: bool, ok: bool, parted: bool, forgot: bool, present: bool,
                      a: Trace, b: Trace)
    requires Prepared(before, clean, ok, parted, forgot, a) && !(clean && ok)
    requires b == a.(client := b.client, changes := b.changes) && a.changes <= b.changes
    requires b.changes <= a.changes + [Other(ConnAck(if ok then Accepted else ServerUnavailable, present))] +
                          Handings(if forgot then [] else Fold(start, before.changes))
    ensures FailStep(start, before, NewClient(clean), b)
  {
    assert ConnectFails(start, before, clean, parted, forgot, present, b);
  }

  // ----- event after event -----

  ghost predicate Chained(start: Queue, story: seq<Trace>, events: seq<SessionEvent>) {
    |story| == |events| + 1 && forall i :: 0 <= i < |events| ==> EventStep(start, story[i], events[i], story[i + 1])
  }

  lemma ChainedStep(start: Queue, story: seq<Trace>, events: seq<SessionEvent>, i: nat, b: Trace)
    requires i < |events| && Chained(start, story, events[..i]) && EventStep(start, story[i], events[i], b)
    ensures Chained(start, story + [b], events[..i + 1])
  {
    hide EventStep;
    var after, more := story + [b], events[..i + 1];
    forall k | 0 <= k < |more| ensures EventStep(start, after[k], more[k], after[k + 1]) {
      if k < i {
        assert more[k] == events[..i][k];
      }
    }
  }

  lemma NothingChained(start: Queue, a: Trace)
    ensures Chained(start, [a], []) && Unbroken([], 0)
  {}

  /** A life of the session: the queue it started with, its story as far as it survived, and its end. */
  datatype Life = Life(start: Queue, story: seq<Trace>, end: Trace)

  /** The DISCONNECT to a client that is still there. */
  ghost predicate Closes(a: Trace, b: Trace) {
    b == a || (a.client && (b == a.(client := false) || b == a.(changes := a.changes + [Other(Disconnect)])))
  }

  /** All events survived, or all up to one that the session gave up over. */
  ghost predicate Lived(l: Life, events: seq<SessionEvent>) {
    && 1 <= |l.story| <= |events| + 1
    && var n := |l.story| - 1;
    && Chained(l.start, l.story, events[..n])
    && (if n == |events| then l.end == l.story[n]
        else exists last :: FailStep(l.start, l.story[n], events[n], last) && Closes(last, l.end))
  }

  /** A life begins with no client, and with what was passed on before. */
  predicate Begins(l: Life, receipts: seq<Receipt>) {
    && l.story != []
    && var a := l.story[0]; !a.client && a.changes == [] && a.routed == [] && a.receipts == receipts
  }

  /** The histories after some starts; a start that found no tables to read adds nothing. */
  function PastAfter(past: seq<Change>, lives: seq<Option<Life>>): seq<Change> {
    if lives == [] then past
    else
      var l := lives[|lives| - 1];
      PastAfter(past, lives[..|lives| - 1]) + if l.Some? then l.value.end.changes else []
  }

  function ReceiptsAfter(receipts: seq<Receipt>, lives: seq<Option<Life>>): seq<Receipt> {
    if lives == [] then receipts
    else
      var l := lives[|lives| - 1];
      if l.Some? then l.value.end.receipts else ReceiptsAfter(receipts, lives[..|lives| - 1])
  }

  ghost predicate LivedAt(receipts: seq<Receipt>, lives: seq<Option<Life>>, runs: seq<seq<SessionEvent>>, i: int)
    requires 0 <= i < |lives| && i < |runs|
  {
    lives[i].Some? ==> Lived(lives[i].value, runs[i]) && Begins(lives[i].value, ReceiptsAfter(receipts, lives[..i]))
  }

  lemma LifeAdded(past: seq<Change>, receipts: seq<Receipt>, lives: seq<Option<Life>>, runs: seq<seq<SessionEvent>>,
                  l: Option<Life>)
    requires |lives| < |runs| && forall k :: 0 <= k < |lives| ==> LivedAt(receipts, lives, runs, k)
    requires l.Some? ==> Lived(l.value, runs[|lives|]) && Begins(l.value, ReceiptsAfter(receipts, lives))
    ensures var more := lives + [l];
            && PastAfter(past, more) == PastAfter(past, lives) + (if l.Some? then l.value.end.changes else [])
            && ReceiptsAfter(receipts, more) == (if l.Some? then l.value.end.receipts else ReceiptsAfter(receipts, lives))
            && forall k :: 0 <= k < |more| ==> LivedAt(receipts, more, runs, k)
  {
    hide Lived, Begins;
    var more := lives + [l];
    assert more[..|lives|] == lives;
    forall k | 0 <= k < |more| ensures LivedAt(receipts, more, runs, k) {
      if k < |lives| {
        assert LivedAt(receipts, lives, runs, k) && more[..k] == lives[..k];
      }
    }
  }

  lemma NothingYet(past: seq<Change>, receipts: seq<Receipt>)
    ensures PastAfter(past, []) == past && ReceiptsAfter(receipts, []) == receipts
    ensures Packets([]) == [] && Packets(past) == Packets(past) + [] && Forwards(receipts) == Forwards(receipts) + ForwardsIn([])
  {}

  // ----- marks -----

  lemma UnbrokenAppend(a: seq<Change>, b: seq<Change>)
    requires Unbroken(a, 0) && Unbroken(b, 0)
    ensures Unbroken(a + b, 0)
  {
    var c := a + b;
    forall i | 0 <= i < |c| && c[i].Handed? && !c[i].packet.dup
      ensures i + 1 < |c| && c[i + 1] == Marked(c[i].packet.identifier)
    {
      if i < |a| {
        assert a[i] == c[i] && c[i + 1] == a[i + 1];
      } else {
        assert b[i - |a|] == c[i] && c[i + 1] == b[i - |a| + 1];
      }
    }
  }

  lemma {:induction false} HandingsUnbroken(q: Queue)
    ensures Unbroken(Handings(q), 0)
  {
    if q != [] {
      HandingsUnbroken(q[..|q| - 1]);
      UnbrokenAppend(Handings(q[..|q| - 1]), Handing(q[|q| - 1]));
    }
  }

  lemma SendsUnbroken(was: bool, before: seq<Change>, pre: seq<Change>, out: seq<Change>, here: bool, after: seq<Change>)
    requires Sends(was, before, pre, out, here, after) && Unbroken(before, 0) && Unbroken(pre, 0) && Unbroken(out, 0)
    ensures Unbroken(after, 0)
  {
    UnbrokenAppend(before, pre);
    UnbrokenAppend(before + pre, if here then out else []);
  }

  lemma GoesUnbroken(was: bool, before: seq<Change>, out: seq<Change>, here: bool, after: seq<Change>)
    requires Goes(was, before, out, here, after) && Unbroken(before, 0) && forall i :: 0 <= i < |out| ==> !out[i].Handed?
    ensures Unbroken(after, 0)
  {
    if after == before + out {
      UnbrokenAppend(before, out);
    } else {
      var k :| SentTo(before, out, k, after);
      UnbrokenAppend(before, out[..k]);
    }
  }

  lemma ClientUnbroken(a: Trace, message: MQTTMessage, b: Trace)
    requires ClientStep(a, message, b) && Unbroken(a.changes, 0)
    ensures Unbroken(b.changes, 0)
  {
    hide Goes, Open;
    match message {
      case Publish(m) => SendsUnbroken(a.client, a.changes, [], Acks(m), b.client, b.changes);
      case PubAck(mid) => UnbrokenAppend(a.changes, [Acknowledged(mid)]);
      case PubComp(mid) => UnbrokenAppend(a.changes, [Acknowledged(mid)]);
      case PubRec(mid) => SendsUnbroken(a.client, a.changes, [Received(mid)], [Other(PubRel(mid))], b.client, b.changes);
      case PubRel(mid) => SendsUnbroken(a.client, a.changes, [], [Other(PubComp(mid))], b.client, b.changes);
      case Subscribe(mid, filters) =>
        var got :| SubscribeStep(a, mid, filters, got, b);
        GoesUnbroken(a.client, a.changes, SubscribePackets(mid, filters, got), b.client, b.changes);
      case Unsubscribe(mid, _) => SendsUnbroken(a.client, a.changes, [], [Other(UnsubAck(mid))], b.client, b.changes);
      case _ =>
    }
  }

  /** After every event that is survived, each first send is on record. */
  lemma StepUnbroken(start: Queue, a: Trace, e: SessionEvent, b: Trace)
    requires EventStep(start, a, e, b) && Unbroken(a.changes, 0)
    ensures Unbroken(b.changes, 0)
  {
    hide Fold, ClientStep, Handings;
    match e {
      case Internal(session, delivery) =>
        if session.generation == a.who.generation && delivery.Publish? {
          var m := delivery.publish;
          var mid :| DeliveryStep(a, m, mid, b);
          SendsUnbroken(a.client, a.changes, Queueing(m, mid), HandOuts(Delivered(m, mid)), b.client, b.changes);
        }
      case FromClient(message) => ClientUnbroken(a, message, b);
      case NewClient(clean) =>
        var c :| ConnectStep(start, a, clean, c, b);
        var q := if c.cleared then [] else Fold(start, a.changes);
        HandingsUnbroken(q[..c.k]);
        var x := a.changes + Parting(c.parted);
        var y := x + Clearing(c.cleared);
        var z := y + ConnAcked(c.connacked, CodeOf(clean, c.cleared), c.present);
        UnbrokenAppend(a.changes, Parting(c.parted));
        UnbrokenAppend(x, Clearing(c.cleared));
        UnbrokenAppend(y, ConnAcked(c.connacked, CodeOf(clean, c.cleared), c.present));
        UnbrokenAppend(z, Handings(q[..c.k]));
    }
  }
}
