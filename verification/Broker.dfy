/** Router and sessions over one set of tables: what every step of either keeps for all. */
module Broker {
  import opened Basics
  import opened Paths
  import opened Matching
  import opened Tables
  import opened TopicData
  import opened Router
  import S = Session
  import Y = Story
  import D = SessionData
  import T = SessionTables
  import I = Incoming
  import O = Outgoing
  import G = Generations

  /** The router's memory while it runs, with the nodes that keep a row without use. */
  datatype Index = Up(data: Data, spare: set<Path>) | Down

  /** All that lasts: the tables, the index, and for each session row what the session keeps. */
  datatype World = World(t: Tables, index: Index, sessions: map<int, S.Party>)

  /** The router can go on, or start from the tables. */
  ghost predicate IndexInOrder(t: Tables, x: Index) {
    match x
    case Up(d, spare) => Sound(d, t, spare)
    case Down => Loadable(t)
  }

  ghost predicate AllInOrder(w: World) {
    && D.Sane(w.t) && IndexInOrder(w.t, w.index) && w.sessions.Keys == w.t.sessions.Keys
    && forall s :: s in w.sessions ==> S.InOrder(w.t, s, w.sessions[s])
  }

  /** What the contracts of the router's handlers say of a call, failed or not, and of its start. */
  ghost predicate RouterMoves(w: World, v: World) {
    RouterFrame(w.t, v.t) && IndexInOrder(v.t, v.index) && v.sessions == w.sessions
  }

  /** What the contracts of a session say of an event, survived or not, and of its start. */
  ghost predicate SessionMoves(w: World, v: World, s: int) {
    && SessionFrame(w.t, v.t, s) && v.index == w.index
    && s in v.sessions && v.sessions == w.sessions[s := v.sessions[s]]
    && S.InOrder(v.t, s, v.sessions[s])
    && (s in w.sessions ==> Continues(w.sessions[s], v.sessions[s]))
  }

  /** The same session, with all that happened to it before. */
  ghost predicate Continues(p: S.Party, q: S.Party) {
    q.name == p.name && p.past <= q.past && p.receipts <= q.receipts
  }

  ghost predicate Moves(w: World, v: World) {
    RouterMoves(w, v) || exists s :: SessionMoves(w, v, s)
  }

  lemma OthersKeep(w: World, v: World, s: int, i: int)
    requires AllInOrder(w) && SessionMoves(w, v, s) && i in w.sessions && i != s
    ensures S.InOrder(v.t, i, v.sessions[i])
  {
    var p := w.sessions[i];
    assert S.InOrder(w.t, i, p);
    assert D.Sane(v.t);
    D.OtherSame(w.t, v.t, i, s);
    hide SessionFrame, D.SameFor, D.Startable, D.Sane, D.InStep, D.Recorded, D.IncomingAgree;
    D.RecordSame(w.t, v.t, i, p.name, p.past, I.Open(p.receipts));
    if p.memory.Some? {
      D.InStepUnderOther(w.t, v.t, i, p.memory.value, s);
    }
  }

  lemma SessionKeeps(w: World, v: World, s: int)
    requires AllInOrder(w) && SessionMoves(w, v, s)
    ensures AllInOrder(v)
  {
    hide Agree, Owned, IdExact, S.InOrder;
    assert D.Sane(v.t) && s in v.t.sessions by { InOrderSane(v.t, s, v.sessions[s]); }
    match w.index {
      case Up(d, spare) =>
        AgreeUnderSession(d, w.t, v.t, s);
      case Down =>
        var d: Data :| Agree(d, w.t);
        AgreeUnderSession(d, w.t, v.t, s);
    }
    forall i | i in v.sessions ensures S.InOrder(v.t, i, v.sessions[i]) {
      if i != s {
        OthersKeep(w, v, s, i);
      }
    }
  }

  lemma InOrderSane(t: Tables, s: int, p: S.Party)
    requires S.InOrder(t, s, p)
    ensures D.Sane(t) && s in t.sessions
  {}

  lemma RouterKeeps(w: World, v: World)
    requires AllInOrder(w) && RouterMoves(w, v)
    ensures AllInOrder(v)
  {
    D.SaneUnderRouter(w.t, v.t);
    forall i | i in v.sessions ensures S.InOrder(v.t, i, v.sessions[i]) {
      UnderRouter(w.t, v.t, i, w.sessions[i]);
    }
  }

  lemma UnderRouter(t: Tables, u: Tables, i: int, p: S.Party)
    requires S.InOrder(t, i, p) && RouterFrame(t, u) && D.Sane(u)
    ensures S.InOrder(u, i, p)
  {
    D.RouterSame(t, u, i);
    hide RouterFrame, D.SameFor, D.Startable, D.Sane, D.InStep, D.Recorded, D.IncomingAgree;
    D.RecordSame(t, u, i, p.name, p.past, I.Open(p.receipts));
    if p.memory.Some? {
      D.InStepUnderRouter(t, u, i, p.memory.value);
    }
  }

  ghost predicate Run(ws: seq<World>) {
    ws != [] && forall i :: 0 <= i < |ws| - 1 ==> Moves(ws[i], ws[i + 1])
  }

  /** However router and sessions take turns, fail, stop and start again: the index goes on mirroring the tables or
      can be loaded from them, and every session is in order with its memory and both its histories, which begin with
      what happened to it before the run. */
  lemma {:induction false} RunInOrder(ws: seq<World>)
    requires Run(ws) && AllInOrder(ws[0])
    ensures AllInOrder(ws[|ws| - 1])
    ensures forall s :: s in ws[0].sessions ==>
              s in ws[|ws| - 1].sessions && Continues(ws[0].sessions[s], ws[|ws| - 1].sessions[s])
    decreases |ws|
  {
    hide AllInOrder, RouterMoves, SessionMoves;
    if |ws| > 1 {
      var w, v := ws[|ws| - 2], ws[|ws| - 1];
      RunInOrder(ws[..|ws| - 1]);
      assert Moves(w, v);
      if RouterMoves(w, v) {
        RouterKeeps(w, v);
      } else {
        var s :| SessionMoves(w, v, s);
        SessionKeeps(w, v, s);
      }
      AllContinue(w, v);
    }
  }

  lemma AllContinue(w: World, v: World)
    requires Moves(w, v)
    ensures forall s :: s in w.sessions ==> s in v.sessions && Continues(w.sessions[s], v.sessions[s])
  {}

  /** Message rows neither get lost nor are left over in a run, if the router's steps leave none. */
  lemma {:induction false} RunConserved(ws: seq<World>)
    requires Run(ws) && Conserved(ws[0].t)
    requires forall i :: 0 <= i < |ws| - 1 && RouterMoves(ws[i], ws[i + 1]) ==> Tidy(ws[i].t, ws[i + 1].t)
    ensures forall i :: 0 <= i < |ws| ==> Conserved(ws[i].t)
    decreases |ws|
  {
    hide Conserved, RouterMoves, Owned;
    if |ws| > 1 {
      var w, v := ws[|ws| - 2], ws[|ws| - 1];
      RunConserved(ws[..|ws| - 1]);
      assert Conserved(ws[..|ws| - 1][|ws| - 2].t);
      assert Moves(w, v) && Tidy(w.t, v.t);
      forall i | 0 <= i < |ws| ensures Conserved(ws[i].t) {
        if i < |ws| - 1 {
          assert Conserved(ws[..|ws| - 1][i].t);
        }
      }
    }
  }

  // ----- the program's calls as steps -----

  /** A session as its object shows it. */
  ghost function PartyOf(session: S.MQTTSession, running: bool): S.Party
    reads session
  {
    S.Party(session.id, if running then Some(session.Mem()) else None, session.AllChanges(), session.receipts)
  }

  /** An event of a running session, survived or not, is a step. */
  method SessionTurn(session: S.MQTTSession, e: Y.SessionEvent, ghost w: World)
    returns (r: Result<(), S.SessionError>, ghost v: World)
    requires AllInOrder(w) && session.Valid() && w.t == session.persist.db.t
    requires session.internalId in w.sessions && w.sessions[session.internalId] == PartyOf(session, true)
    modifies session, session.persist.db
    ensures SessionMoves(w, v, session.internalId) && AllInOrder(v) && v.t == session.persist.db.t
    ensures v.sessions[session.internalId] == PartyOf(session, S.Survives(r))
    ensures if S.Survives(r) then session.Valid() else session.Durable()
  {
    hide AllInOrder, S.InOrder, S.MQTTSession.Valid, S.MQTTSession.Durable, SessionFrame, Y.EventStep, Y.FailStep;
    r := session.HandleEvent(e);
    if S.Survives(r) {
      session.ValidInOrder();
    } else {
      session.DurableInOrder();
    }
    var s := session.internalId;
    v := World(session.persist.db.t, w.index, w.sessions[s := PartyOf(session, S.Survives(r))]);
    SessionKeeps(w, v, s);
  }

  predicate Keeps(p: S.Party, name: Str, past: seq<O.Change>, receipts: seq<I.Receipt>) {
    p.name == name && p.past == past && p.receipts == receipts
  }

  /** What is known of a name: nothing, or what its row's session keeps. */
  ghost predicate Remembered(w: World, name: Str, past: seq<O.Change>, receipts: seq<I.Receipt>) {
    if T.NoRow(w.t, name) then past == [] && receipts == []
    else exists s :: s in w.sessions && Keeps(w.sessions[s], name, past, receipts)
  }

  /** A start of a session, of a new name or from its rows, is a step. */
  method SessionStart(persist: T.PersistSessionSQL, name: Str, ghost past: seq<O.Change>, ghost receipts: seq<I.Receipt>,
                      ghost w: World)
    returns (session: S.MQTTSession, r: Result<(), S.SessionError>, ghost v: World)
    requires AllInOrder(w) && w.t == persist.db.t && Remembered(w, name, past, receipts)
    modifies persist.db
    ensures fresh(session) && session.persist == persist && session.id == name && AllInOrder(v) && v.t == persist.db.t
    ensures r.Err? ==> v == w
    ensures r.Ok? ==> session.Valid() && SessionMoves(w, v, session.internalId)
    ensures r.Ok? ==> session.past == past && v.sessions[session.internalId] == PartyOf(session, true)
  {
    hide S.MQTTSession.Valid, SessionFrame, S.Resumable;
    MayStart(w, name, past, receipts);
    session := new S.MQTTSession(persist, name, past, receipts);
    r := session.InitPersistSession();
    v := w;
    if r.Ok? {
      var s := session.internalId;
      session.ValidInOrder();
      SameSession(w, persist.db.t, s, PartyOf(session, true), past, receipts);
      v := World(persist.db.t, w.index, w.sessions[s := PartyOf(session, true)]);
      SessionKeeps(w, v, s);
    }
  }

  lemma MayStart(w: World, name: Str, past: seq<O.Change>, receipts: seq<I.Receipt>)
    requires AllInOrder(w) && Remembered(w, name, past, receipts)
    ensures S.Resumable(w.t, name, receipts, past)
  {
    hide S.Resumable, D.Startable, D.Recorded, D.IncomingAgree, I.Orderly;
    if T.NoRow(w.t, name) {
      S.FreshResumable(w.t, name);
    } else {
      var s :| s in w.sessions && Keeps(w.sessions[s], name, past, receipts);
      assert S.InOrder(w.t, s, w.sessions[s]);
      S.DurableResumable(w.t, s, name, receipts, past);
    }
  }

  /** The row a session was started from is the one of its name. */
  lemma SameSession(w: World, u: Tables, s: int, p: S.Party, past: seq<O.Change>, receipts: seq<I.Receipt>)
    requires AllInOrder(w) && Remembered(w, p.name, past, receipts) && SessionFrame(w.t, u, s)
    requires S.InOrder(u, s, p) && past <= p.past && receipts <= p.receipts
    ensures s in w.sessions ==> Continues(w.sessions[s], p)
  {
    hide D.InStep, D.Recorded, D.IncomingAgree, I.Orderly, T.NoRow;
    if s in w.sessions {
      assert S.InOrder(w.t, s, w.sessions[s]);
      assert w.t.sessions[s].name == p.name;
      assert !T.NoRow(w.t, p.name) by { NotNew(w.t, s); }
      var i :| i in w.sessions && Keeps(w.sessions[i], p.name, past, receipts);
      assert S.InOrder(w.t, i, w.sessions[i]);
      assert i == s;
    }
  }

  lemma NotNew(t: Tables, s: int)
    requires s in t.sessions
    ensures !T.NoRow(t, t.sessions[s].name)
  {}

  /** A message to the running router, served or failed over, is a step. */
  method RouterTurn(router: MessageRouter, m: G.RouterMessage, names: seq<Str>, running: set<Str>, ghost w: World)
    returns (r: Result<(), BrokerError>, ghost v: World)
    requires AllInOrder(w) && router.topics.Valid() && w.t == router.topics.persist.db.t && Sendable(w.t, m, names)
    modifies router`delivered, router.topics, router.topics.nodes.Values, router.topics.persist.db
    ensures RouterMoves(w, v) && AllInOrder(v) && v.t == router.topics.persist.db.t
    ensures v.index == if r.Ok? then Up(router.topics.Data(), router.topics.spare) else Down
    ensures r.Ok? || !m.ForwardPublish? ==> Tidy(w.t, v.t)
    ensures r.Ok? ==> router.topics.Valid()
  {
    hide AllInOrder, Tidy, RouterFrame, Loadable, Sound, Known, Split;
    match m {
      case ForwardPublish(p) =>
        r := router.PublishMessage(p, running);
      case Subscribe(s, topic, qos) =>
        var response := router.SubscribeMessage(s, topic, qos);
        r := if response.Ok? then Ok(()) else Err(response.error);
      case Unsubscribe(s, topics) =>
        r := router.UnsubscribeMessage(s, names);
    }
    v := World(router.topics.persist.db.t, if r.Ok? then Up(router.topics.Data(), router.topics.spare) else Down, w.sessions);
    RouterKeeps(w, v);
  }

  /** What sessions send: topics and QoS as they were decoded, under the identity of a row. */
  ghost predicate Sendable(t: Tables, m: G.RouterMessage, names: seq<Str>) {
    match m
    case ForwardPublish(p) => Plain(Split(p.topic))
    case Subscribe(s, _, qos) => Known(t, s) && qos <= 2
    case Unsubscribe(s, topics) => Known(t, s) && topics == ToSet(names)
  }

  const EMPTY := Tables(map[], map[], map[], map[], map[], map[])

  lemma EmptyInOrder()
    ensures AllInOrder(World(EMPTY, Down, map[]))
  {
    var d: Data := map[[] := BLANK];
    assert Agree(d, EMPTY);
  }

  // ----- sessions and index -----

  /** The subscriptions a session reads back are the filters under which the index files it. */
  lemma LoadedAreFiled(d: Data, t: Tables, s: int, topic: Str)
    requires Agree(d, t) && s in t.sessions
    ensures topic in T.SubscribedTopics(t, s) <==> G.TagAt(d, Split(topic), t.sessions[s].name).Some?
  {
    var p, n := Split(topic), t.sessions[s].name;
    if p in d && n in d[p].clients {
      assert EntryBacked(d, t, p, n);
      var e := d[p].clients[n];
      var r :| RowIs(t, r, e.session.internalId, d[p].id.value, e.qos);
      SplitInjective(t.topics[d[p].id.value].topic, topic);
      assert e.session.internalId == s;
    }
    if topic in T.SubscribedTopics(t, s) {
      var r :| r in t.subscriptions && t.subscriptions[r].session == s && t.subscriptions[r].topic in t.topics &&
               t.topics[t.subscriptions[r].topic].topic == topic;
      assert RowBacked(d, t, r);
    }
  }

  /** The return code of a SUBACK is the QoS filed for the session, but for one case: the session held the filter
      under another QoS, and the update in the tables failed. Then the code is the QoS asked for, the entry stays. */
  lemma CodeFiled(d: Data, t: Path, id: int, s: SessionId, qos: Byte, filters: seq<(Str, Byte)>,
                  got: seq<Y.SubscribeAnswer>, i: nat)
    requires |got| == |filters| && i < |filters| && filters[i].1 == qos <= 2
    requires GrantedQos(d, t, s, qos, got[i].ret) && got[i].ret <= 2
    ensures |Y.CodesOf(filters, got)| == |filters|
    ensures var e, code := SubscribeData(d, t, id, s, qos, got[i].ret), Y.CodesOf(filters, got)[i];
            && t in e && s.session in e[t].clients && (code == qos)
            && (e[t].clients[s.session].qos == code <==>
                  got[i].ret == qos || (t in d && s.session in d[t].clients && d[t].clients[s.session].qos == qos))
            && (e[t].clients[s.session].qos != code <==>
                  && t in d && s.session in d[t].clients && got[i].ret != qos && got[i].ret == d[t].clients[s.session].qos
                  && e == Touched(d, t, id))
  {
    Y.CodeExact(filters, got, i);
    TouchedClients(d, t, id);
    SubscribeCases(d, t, id, s, qos, got[i].ret);
  }
}
