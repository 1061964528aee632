/** The router's handlers: fan-out of a publish, subscribe answers, unsubscribe. */
module Router {
  import opened Basics
  import opened Paths
  import opened Matching
  import opened Tables
  import opened TopicData
  import opened Topics
  import opened Generations

  datatype SessionInternalMessage = SessionInternalMessage(session: SessionId, message: Publish)

  datatype SubscribeResponse = SubscribeResponse(session: SessionId, ret: Byte, retained: seq<Publish>)

  class MessageRouter {
    const topics: Subscriptions
    /** What was put into the inboxes of sessions, in order. */
    var delivered: seq<SessionInternalMessage>

    constructor (topics: Subscriptions)
      ensures this.topics == topics && delivered == []
    {
      this.topics := topics;
      delivered := [];
    }

    /**
     * Stores the message if it is to be retained, then gives one copy to each session found. `running` are
     * sessions whose inbox stays open; of the others some may have one, or get one if QoS is above 0.
     */
    method PublishMessage(m: Publish, running: set<Str>) returns (r: Result<(), BrokerError>)
      requires topics.Valid() && Plain(Split(m.topic))
      modifies this`delivered, topics, topics.nodes.Values, topics.persist.db
      ensures RouterFrame(old(topics.persist.db.t), topics.persist.db.t) && Loadable(topics.persist.db.t)
      ensures r.Err? ==> m.retain && delivered == old(delivered)
      ensures r.Ok? ==> topics.Valid() && Tidy(old(topics.persist.db.t), topics.persist.db.t)
      ensures r.Ok? && !m.retain ==> topics.Data() == old(topics.Data()) && topics.persist.db.t == old(topics.persist.db.t)
      ensures r.Ok? && m.retain ==> exists id :: topics.Data() == RetainData(old(topics.Data()), Split(m.topic), id, m)
      ensures r.Ok? && m.retain ==> OnlyKept(old(topics.Data()), topics.Data(), m)
      ensures r.Ok? ==> old(delivered) <= delivered &&
                        FansOut(ClientMap(topics.Data()), m, running, delivered[|old(delivered)|..])
      ensures r.Ok? ==> forall i :: |old(delivered)| <= i < |delivered| ==>
                var x := delivered[i].message; x.qos <= m.qos && x == m.(qos := x.qos)
    {
      hide Agree, Owned, Tidy, Loadable, RouterFrame, Split, IdExact, Subscriptions.Shape, Entries, Holding,
           RetainData, OnlyKept, Plain,
           IsAnswer, FansOut, Copies, ClientMap, AllKeyed, Within, Hits, Collect, Subscriptions.Valid, Subscriptions.Data;
      FrameRefl(topics.persist.db.t);
      topics.InUse();
      if m.retain {
        ghost var d := topics.Data();
        r := topics.Retain(m);
        if r.Err? {
          return;
        }
        ghost var id :| topics.Data() == RetainData(d, Split(m.topic), id, m);
        RetainedAt(d, id, m);
      }
      topics.InUse();
      var subscribed := topics.GetSubscribed(m.topic);
      var out := FanOut(m, subscribed, running);
      AnswerFansOut(ClientMap(topics.Data()), m, running, subscribed, out);
      delivered := delivered + out;
      r := Ok(());
    }

    method SubscribeMessage(session: SessionId, topic: Str, qos: Byte) returns (r: Result<SubscribeResponse, BrokerError>)
      requires topics.Valid() && Known(topics.persist.db.t, session) && qos <= 2
      modifies topics, topics.nodes.Values, topics.persist.db
      ensures Framed(old(topics.persist.db.t), topics.persist.db.t) && Loadable(topics.persist.db.t)
      ensures r.Ok? ==> topics.Valid() && r.value.session == session && r.value.ret <= 2 && HasRow(topics.Data(), Split(topic))
      ensures r.Ok? ==> topics.Data() == SubscribeData(old(topics.Data()), Split(topic),
                          topics.Data()[Split(topic)].id.value, session, qos, r.value.ret)
      ensures r.Ok? ==> GrantedQos(old(topics.Data()), Split(topic), session, qos, r.value.ret)
      ensures r.Ok? ==> OnlyFiled(old(topics.Data()), topics.Data(), session, Split(topic), r.value.ret)
      ensures r.Ok? ==> match topics.Data()[Split(topic)].message
                        case Some(m) => |r.value.retained| == 1 && Lowered(r.value.retained[0], m, r.value.ret)
                        case None => r.value.retained == []
    {
      hide Agree, Owned, Tidy, Loadable, RouterFrame, Split, IdExact, Entries, Holding, SubscribeData, GrantedQos,
           OnlyFiled,           Subscriptions.Valid, Subscriptions.Shape, Subscriptions.Data, Known;
      ghost var d := topics.Data();
      var granted := topics.Subscribe(session, topic, qos);
      if granted.Err? {
        return Err(granted.error);
      }
      SubscribedAt(d, Split(topic), topics.Data()[Split(topic)].id.value, session, qos, granted.value);
      var retained := topics.GetRetainedMessages(topic);
      retained := DowngradeAll(retained, granted.value);
      r := Ok(SubscribeResponse(session, granted.value, retained));
    }

    /** One topic after the other. */
    method UnsubscribeMessage(session: SessionId, names: seq<Str>) returns (r: Result<(), BrokerError>)
      requires topics.Valid() && Known(topics.persist.db.t, session)
      modifies topics, topics.nodes.Values, topics.persist.db
      ensures Framed(old(topics.persist.db.t), topics.persist.db.t) && Loadable(topics.persist.db.t)
      ensures r.Ok? ==> topics.Valid() && topics.Data() == UnsubscribeAll(old(topics.Data()), session, PathsOf(ToSet(names)))
      ensures r.Ok? ==> OnlyTaken(old(topics.Data()), topics.Data(), session, names)
    {
      hide Agree, Owned, Tidy, Loadable, RouterFrame, Split, IdExact, Entries, Holding, UnsubscribeData,
           UnsubscribeAll, PathsOf, Known, Sound, OnlyTaken, Subscriptions.Valid, Subscriptions.Shape, Subscriptions.Data;
      ghost var d, db := topics.Data(), topics.persist.db.t;
      FrameRefl(db);
      topics.InUse();
      UnsubscribeNone(d, session);
      var i := 0;
      while i < |names|
        invariant 0 <= i <= |names|
        invariant topics.Valid() && Framed(db, topics.persist.db.t) && Loadable(topics.persist.db.t)
        invariant forall p :: p in topics.nodes ==> fresh(topics.nodes[p]) || topics.nodes[p] in old(topics.nodes).Values
        invariant topics.Data() == UnsubscribeAll(d, session, PathsOf(ToSet(names[..i])))
      {
        FrameKnown(db, topics.persist.db.t, session);
        ghost var mid := topics.persist.db.t;
        r := topics.Unsubscribe(session, names[i]);
        FrameTrans(db, mid, topics.persist.db.t);
        if r.Err? {
          return;
        }
        UnsubscribeStep(d, session, names, i);
        i := i + 1;
      }
      assert names[..i] == names;
      UnsubscribedFrom(d, session, names);
      r := Ok(());
    }
  }

  /** No retained message goes out above the QoS granted. */
  method DowngradeAll(messages: seq<Publish>, qos: Byte) returns (retained: seq<Publish>)
    ensures |retained| == |messages|
    ensures forall k :: 0 <= k < |messages| ==> Lowered(retained[k], messages[k], qos)
  {
    retained := messages;
    var i := 0;
    while i < |retained|
      invariant 0 <= i <= |retained| == |messages|
      invariant forall k :: 0 <= k < i ==> Lowered(retained[k], messages[k], qos)
      invariant forall k :: i <= k < |messages| ==> retained[k] == messages[k]
    {
      if retained[i].qos > qos {
        retained := retained[i := retained[i].(qos := qos)];
      }
      i := i + 1;
    }
  }

  // ----- unsubscribing from several topics -----

  function ToSet(names: seq<Str>): set<Str> {
    set i | 0 <= i < |names| :: names[i]
  }

  function MessageAt(d: Data, p: Path): Option<Publish> {
    if p in d then d[p].message else None
  }

  /** The session's entries under the named topics are gone; all others and all messages stay. */
  ghost predicate OnlyTaken(d: Data, e: Data, s: SessionId, names: seq<Str>) {
    forall p ::
      && MessageAt(e, p) == MessageAt(d, p)
      && ClientsAt(ClientMap(e), p) == if exists i :: 0 <= i < |names| && Split(names[i]) == p
                                       then ClientsAt(ClientMap(d), p) - {s.session} else ClientsAt(ClientMap(d), p)
  }

  /** The session is filed under the topic with the QoS answered; all other entries and all messages stay. */
  ghost predicate OnlyFiled(d: Data, e: Data, s: SessionId, p: Path, answer: Byte) {
    && (forall q :: MessageAt(e, q) == MessageAt(d, q))
    && (forall q :: q != p ==> ClientsAt(ClientMap(e), q) == ClientsAt(ClientMap(d), q))
    && var c, was := ClientsAt(ClientMap(e), p), ClientsAt(ClientMap(d), p);
       && s.session in c && c[s.session].qos == answer && c - {s.session} == was - {s.session}
       && (c[s.session].session == s || c == was)
  }

  /** The topic keeps the message, or none if that is empty; all other messages and all entries stay. */
  ghost predicate OnlyKept(d: Data, e: Data, m: Publish) {
    forall p ::
      && MessageAt(e, p) == (if p != Split(m.topic) then MessageAt(d, p) else if m.message == [] then None else Some(m))
      && ClientsAt(ClientMap(e), p) == ClientsAt(ClientMap(d), p)
  }

  lemma SubscribedAt(d: Data, p: Path, id: int, s: SessionId, qos: Byte, answer: Byte)
    requires GrantedQos(d, p, s, qos, answer)
    ensures OnlyFiled(d, SubscribeData(d, p, id, s, qos, answer), s, p, answer)
  {
    var e := SubscribeData(d, p, id, s, qos, answer);
    var c, was := ClientsAt(ClientMap(e), p), ClientsAt(ClientMap(d), p);
    assert c == was || c == was[s.session := TopicEntry(s, qos)];
    assert c - {s.session} == was - {s.session};
  }

  lemma RetainedAt(d: Data, id: int, m: Publish)
    ensures OnlyKept(d, RetainData(d, Split(m.topic), id, m), m)
  {
    hide Split;
  }

  lemma UnsubscribedFrom(d: Data, s: SessionId, names: seq<Str>)
    ensures OnlyTaken(d, UnsubscribeAll(d, s, PathsOf(ToSet(names))), s, names)
  {
    hide Split;
    var ps := PathsOf(ToSet(names));
    forall p ensures p in ps <==> exists i :: 0 <= i < |names| && Split(names[i]) == p {
      if i :| 0 <= i < |names| && Split(names[i]) == p {
        assert names[i] in ToSet(names);
      }
    }
    forall p ensures p in d ==>
        UnsubscribedNode(d[p], s).clients == d[p].clients - {s.session} && UnsubscribedNode(d[p], s).message == d[p].message
    {
      if p in d && s.session !in d[p].clients {
        assert d[p].clients - {s.session} == d[p].clients;
      }
    }
    hide PathsOf, ToSet;
  }

  lemma UnsubscribeNone(d: Data, s: SessionId)
    ensures UnsubscribeAll(d, s, PathsOf(ToSet([]))) == d
  {}

  lemma UnsubscribeStep(d: Data, s: SessionId, names: seq<Str>, i: nat)
    requires i < |names|
    ensures UnsubscribeAll(d, s, PathsOf(ToSet(names[..i + 1]))) ==
            UnsubscribeData(UnsubscribeAll(d, s, PathsOf(ToSet(names[..i]))), Split(names[i]), s)
  {}

  // ----- fan-out -----

  /** Every running session that matches gets exactly one copy per identity, at the QoS of its most specific
      filter; nobody else gets any, and nobody gets two. */
  ghost predicate FansOut(c: map<Path, Clients>, m: Publish, running: set<Str>, out: seq<SessionInternalMessage>) {
    && (forall i :: 0 <= i < |out| ==> Justified(c, m, out[i]))
    && (forall i, j :: 0 <= i < j < |out| ==> out[i].session != out[j].session)
    && (forall sid, f :: Reaches(c, Split(m.topic), sid, f) && sid.session in running ==> Gets(out, sid))
  }

  /** A copy at the QoS of filter `f`, the most specific one of its session. */
  ghost predicate Served(c: map<Path, Clients>, m: Publish, x: SessionInternalMessage, f: Path) {
    Decides(c, Split(m.topic), x.session, f) &&
    Lowered(x.message, m, ClientsAt(c, f)[x.session.session].qos)
  }

  ghost predicate Justified(c: map<Path, Clients>, m: Publish, x: SessionInternalMessage) {
    exists f :: Served(c, m, x, f)
  }

  ghost predicate Gets(out: seq<SessionInternalMessage>, sid: SessionId) {
    exists i :: 0 <= i < |out| && out[i].session == sid
  }

  /** The same in terms of the answer of the lookup. */
  ghost predicate Copies(m: Publish, todo: map<SessionId, Byte>, running: set<Str>, out: seq<SessionInternalMessage>) {
    && (forall i :: 0 <= i < |out| ==> out[i].session in todo && Lowered(out[i].message, m, todo[out[i].session]))
    && (forall i, j :: 0 <= i < j < |out| ==> out[i].session != out[j].session)
    && (forall sid :: sid in todo && sid.session in running ==> Gets(out, sid))
  }

  /** The loop over the sessions found, in an order the map does not fix. */
  method FanOut(m: Publish, subscribed: map<SessionId, Byte>, running: set<Str>) returns (out: seq<SessionInternalMessage>)
    ensures Copies(m, subscribed, running, out)
    ensures forall i :: 0 <= i < |out| ==> var x := out[i].message; x.qos <= m.qos && x == m.(qos := x.qos)
  {
    out := [];
    var rest := subscribed.Keys;
    while rest != {}
      invariant rest <= subscribed.Keys
      invariant Copies(m, subscribed - rest, running, out)
      decreases rest
    {
      var session := Pick(rest);
      var qos := subscribed[session];
      var open: bool := *;
      var starts: bool := *;
      var hasTx := session.session in running || open || (qos > 0 && starts);
      ghost var was := out;
      if hasTx {
        var copy := m;
        if copy.qos > qos {
          copy := copy.(qos := qos);
        }
        out := out + [SessionInternalMessage(session, copy)];
      }
      CopyStep(m, subscribed, rest, running, session, was, out);
      rest := rest - {session};
    }
    assert subscribed - rest == subscribed;
  }

  lemma CopyStep(m: Publish, subscribed: map<SessionId, Byte>, rest: set<SessionId>, running: set<Str>, sid: SessionId,
                 was: seq<SessionInternalMessage>, out: seq<SessionInternalMessage>)
    requires rest <= subscribed.Keys && sid in rest && Copies(m, subscribed - rest, running, was)
    requires || (out == was && sid.session !in running)
             || (|out| == |was| + 1 && out[..|was|] == was && out[|was|].session == sid
                 && Lowered(out[|was|].message, m, subscribed[sid]))
    ensures Copies(m, subscribed - (rest - {sid}), running, out)
  {
    var todo := subscribed - (rest - {sid});
    forall s | s in todo && s.session in running ensures Gets(out, s) {
      if s == sid {
        assert out[|was|].session == sid;
      } else {
        assert Gets(was, s);
        var i :| 0 <= i < |was| && was[i].session == s;
        assert out[i].session == s;
      }
    }
  }

  lemma AnswerFansOut(c: map<Path, Clients>, m: Publish, running: set<Str>, a: map<SessionId, Byte>,
                      out: seq<SessionInternalMessage>)
    requires IsAnswer(c, Split(m.topic), a) && Copies(m, a, running, out)
    ensures FansOut(c, m, running, out)
  {
    hide Split, Matches, Lowered;
    forall i | 0 <= i < |out| ensures Justified(c, m, out[i]) {
      var f :| Decides(c, Split(m.topic), out[i].session, f) && a[out[i].session] == ClientsAt(c, f)[out[i].session.session].qos;
      assert Served(c, m, out[i], f);
    }
    forall sid, f | Reaches(c, Split(m.topic), sid, f) && sid.session in running ensures Gets(out, sid) {
      assert sid in a;
    }
  }

  /** What the router puts into an inbox is a delivery in the sense of the generation protocol. */
  lemma ServedIsRouted(d: Data, m: Publish, x: SessionInternalMessage, f: Path)
    requires Served(ClientMap(d), m, x, f)
    ensures Routed(d, x.session.session, m, Delivery(x.session, x.message, f))
  {}
}
